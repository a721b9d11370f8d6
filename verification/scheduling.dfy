/** The queue discipline over whole runs: one reconcile per key, no lost wakeups, a bounded number of retries. */
module Scheduling {
  import opened Types
  import opened WorkQueues
  import opened Systems

  ghost predicate Works(s: System, w: nat, key: Key) {
    w in s.workers && s.workers[w].Busy? && s.workers[w].key == key
  }

  /** The keys being processed are those of the busy workers, each held by one. */
  ghost predicate Paired(s: System) {
    && (forall w, key :: Works(s, w, key) ==> key in s.queue.processing)
    && (forall key :: key in s.queue.processing ==> exists w :: Works(s, w, key))
    && (forall v, w, key :: Works(s, v, key) && Works(s, w, key) ==> v == w)
  }

  /** A key's failure count stays within the budget, with room left where it is about to be raised. */
  ghost predicate Budgeted(s: System) {
    && (forall key :: key in s.queue.failures ==> 0 < s.queue.failures[key] <= MAX_RETRIES)
    && (forall w :: w in s.workers && s.workers[w].Busy? && s.workers[w].stage.Retrying? ==>
                      s.queue.NumRequeues(s.workers[w].key) < MAX_RETRIES)
  }

  ghost predicate Disciplined(s: System) {
    s.queue.Valid() && !s.queue.shuttingDown && Paired(s) && Budgeted(s)
  }

  lemma TakeKeeps(cfg: Config, s: System, w: nat)
    requires Disciplined(s) && Enabled(cfg, s, Take(w))
    ensures Disciplined(Apply(cfg, s, Take(w)))
  {
    GetKeepsValid(s.queue);
    var t, taken := Apply(cfg, s, Take(w)), s.queue.queue[0];
    assert Works(t, w, taken);
    assert forall v, key :: Works(t, v, key) <==> Works(s, v, key) || (v == w && key == taken);
  }

  lemma MoveKeeps(s: System, t: System, w: nat, stage: Stage)
    requires Disciplined(s) && w in s.workers && s.workers[w].Busy?
    requires t.workers == s.Enter(w, stage) && t.queue.processing == s.queue.processing
    ensures Paired(t)
  {
    assert forall v, key :: Works(t, v, key) <==> Works(s, v, key);
  }

  lemma ReleaseKeeps(cfg: Config, s: System, w: nat)
    requires Disciplined(s) && Enabled(cfg, s, Release(w))
    ensures Disciplined(Apply(cfg, s, Release(w)))
  {
    assert Works(s, w, s.KeyOf(w));
    DoneKeepsValid(s.queue, s.KeyOf(w));
    var t := Apply(cfg, s, Release(w));
    assert forall v, key :: Works(t, v, key) <==> Works(s, v, key) && v != w;
  }

  lemma AddsKeep(cfg: Config, s: System, e: Event)
    requires Disciplined(s) && Enabled(cfg, s, e) && (e.Notify? || e.Fire?)
    ensures Disciplined(Apply(cfg, s, e))
  {
    AddKeepsValid(s.queue, e.key);
    var t := Apply(cfg, s, e);
    assert forall v, key :: Works(s, v, key) <==> Works(t, v, key);
  }

  lemma StepKeeps(cfg: Config, s: System, e: Event)
    requires Disciplined(s) && Enabled(cfg, s, e)
    ensures Disciplined(Apply(cfg, s, e))
  {
    var t := Apply(cfg, s, e);
    match e
    case Notify(_) => AddsKeep(cfg, s, e);
    case Fire(_) => AddsKeep(cfg, s, e);
    case Take(w) => TakeKeeps(cfg, s, w);
    case Call(w, _) => MoveKeeps(s, t, w, t.workers[w].stage);
    case Settle(w) => MoveKeeps(s, t, w, t.workers[w].stage);
    case Retry(w) => MoveKeeps(s, t, w, t.workers[w].stage); SpareBudget(s, w);
    case Release(w) => ReleaseKeeps(cfg, s, w);
    case Crash =>
    case Env(_) => assert forall v, key :: Works(s, v, key) <==> Works(t, v, key);
  }

  /** Raising one key's count leaves the others' budgets alone: nobody else holds the key. */
  lemma SpareBudget(s: System, w: nat)
    requires Disciplined(s) && s.At(w, Retrying)
    ensures Budgeted(s.(queue := s.queue.AddRateLimited(s.KeyOf(w)), workers := s.Enter(w, Releasing)))
  {
    assert Works(s, w, s.KeyOf(w));
    forall v | v != w && v in s.workers && s.workers[v].Busy? ensures s.workers[v].key != s.KeyOf(w) {
      assert Works(s, v, s.workers[v].key);
    }
  }

  lemma {:induction false} RunDisciplined(cfg: Config, states: seq<System>, events: seq<Event>, n: nat)
    requires Run(cfg, states, events) && n < |states|
    ensures Disciplined(states[n])
  {
    if n > 0 {
      RunDisciplined(cfg, states, events, n - 1);
      StepKeeps(cfg, states[n - 1], events[n - 1]);
    }
  }

  /** No key is ever in two reconciles at once. */
  lemma MutualExclusion(cfg: Config, states: seq<System>, events: seq<Event>, n: nat, v: nat, w: nat)
    requires Run(cfg, states, events) && n < |states|
    requires states[n].Active(v) && states[n].Active(w) && states[n].KeyOf(v) == states[n].KeyOf(w)
    ensures v == w
  {
    RunDisciplined(cfg, states, events, n);
    var key := states[n].KeyOf(v);
    assert Works(states[n], v, key) && Works(states[n], w, key);
  }

  lemma OthersHaveOtherKeys(s: System, v: nat, w: nat)
    requires Disciplined(s) && v in s.workers && w in s.workers && s.workers[v].Busy? && s.workers[w].Busy? && v != w
    ensures s.KeyOf(v) != s.KeyOf(w)
  {
    assert Works(s, v, s.KeyOf(v)) && Works(s, w, s.KeyOf(w));
  }

  /** The steps that end a turn, if nothing comes in between, do to the queue what handleErr and Done do;
      after a panic, what Done does. */
  lemma TurnIsHandled(cfg: Config, s: System, w: nat)
    requires Enabled(cfg, s, Settle(w))
    ensures var t := Apply(cfg, s, Settle(w));
            var u := if Enabled(cfg, t, Retry(w)) then Apply(cfg, t, Retry(w)) else t;
            var key, result := s.KeyOf(w), s.PcOf(w).result;
            && Enabled(cfg, u, Release(w))
            && Apply(cfg, u, Release(w)).queue
               == (if result.Panicked? then s.queue else Handled(s.queue, result.Error?, key)).Done(key)
  {}

  // ---- Wakeups ----

  /** A reconcile of the key starts at this event. */
  ghost predicate Starts(s: System, e: Event, key: Key) {
    e.Take? && s.queue.queue != [] && s.queue.queue[0] == key
  }

  /** The key will be reconciled: it waits in the queue, or is dirty while it is being processed. */
  ghost predicate Awaited(s: System, key: Key) {
    key in s.queue.queue || (key in s.queue.dirty && exists w :: Works(s, w, key))
  }

  lemma {:induction false} DirtyUntilStart(cfg: Config, states: seq<System>, events: seq<Event>, i: nat, j: nat,
                                           key: Key)
    requires Run(cfg, states, events) && i < j < |states| && (events[i] == Notify(key) || events[i] == Fire(key))
    requires forall m :: i < m < j ==> events[m] != Crash && !Starts(states[m], events[m], key)
    ensures key in states[j].queue.dirty
  {
    RunDisciplined(cfg, states, events, j - 1);
    if j > i + 1 {
      DirtyUntilStart(cfg, states, events, i, j - 1, key);
      assert Enabled(cfg, states[j - 1], events[j - 1]);
    }
  }

  /** After an enqueue, as long as the process lives, the key has a later reconcile started or still to come. */
  lemma NoLostWakeup(cfg: Config, states: seq<System>, events: seq<Event>, i: nat, j: nat, key: Key)
    requires Run(cfg, states, events) && i < j < |states| && (events[i] == Notify(key) || events[i] == Fire(key))
    requires forall m :: i < m < j ==> events[m] != Crash
    ensures Awaited(states[j], key) || exists m :: i < m < j && Starts(states[m], events[m], key)
  {
    if forall m :: i < m < j ==> !Starts(states[m], events[m], key) {
      DirtyUntilStart(cfg, states, events, i, j, key);
      RunDisciplined(cfg, states, events, j);
    }
  }

  /** Where the key stands in the queue. */
  ghost predicate StandsAt(s: System, p: nat, key: Key) {
    p < |s.queue.queue| && s.queue.queue[p] == key
  }

  ghost function Takes(events: seq<Event>, i: nat, j: nat): nat
    requires i <= j <= |events|
  {
    if i == j then 0 else Takes(events, i, j - 1) + if events[j - 1].Take? then 1 else 0
  }

  /** Event m moves the key up by one place if it starts a reconcile, and else leaves it where it is. */
  ghost predicate Queues(states: seq<System>, events: seq<Event>, m: nat, key: Key) {
    && m < |events| && |events| < |states|
    && forall p: nat :: StandsAt(states[m], p, key) && (events[m].Take? ==> p > 0) ==>
         StandsAt(states[m + 1], if events[m].Take? then p - 1 else p, key)
  }

  lemma PlaceMoves(cfg: Config, s: System, e: Event, p: nat, key: Key)
    requires Enabled(cfg, s, e) && e != Crash && StandsAt(s, p, key) && (e.Take? ==> p > 0)
    ensures StandsAt(Apply(cfg, s, e), if e.Take? then p - 1 else p, key)
  {}

  lemma EventQueues(cfg: Config, states: seq<System>, events: seq<Event>, m: nat, key: Key)
    requires Run(cfg, states, events) && m < |events| && events[m] != Crash
    ensures Queues(states, events, m, key)
  {
    var s, e := states[m], events[m];
    assert Enabled(cfg, s, e) && states[m + 1] == Apply(cfg, s, e);
    forall p: nat | StandsAt(s, p, key) && (e.Take? ==> p > 0)
      ensures StandsAt(states[m + 1], if e.Take? then p - 1 else p, key)
    {
      PlaceMoves(cfg, s, e, p, key);
    }
  }

  lemma {:induction false} MovesUp(states: seq<System>, events: seq<Event>, i: nat, j: nat, p: nat, key: Key)
    requires i <= j <= |events| < |states| && forall m: nat :: i <= m < j ==> Queues(states, events, m, key)
    requires StandsAt(states[i], p, key) && Takes(events, i, j) <= p
    ensures StandsAt(states[j], p - Takes(events, i, j), key)
  {
    if i < j {
      MovesUp(states, events, i, j - 1, p, key);
      assert Queues(states, events, j - 1, key);
    }
  }

  /** Nobody overtakes: behind p others, a key is reached by exactly the next p + 1 starts of a reconcile. */
  lemma FirstComeFirstServed(cfg: Config, states: seq<System>, events: seq<Event>, i: nat, j: nat, p: nat, key: Key)
    requires Run(cfg, states, events) && i <= j <= |events| && StandsAt(states[i], p, key)
    requires forall m :: i <= m < j ==> events[m] != Crash
    requires Takes(events, i, j) <= p
    ensures StandsAt(states[j], p - Takes(events, i, j), key)
    ensures j < |events| && events[j].Take? && Takes(events, i, j) == p ==> Starts(states[j], events[j], key)
  {
    forall m: nat | i <= m < j ensures Queues(states, events, m, key) { EventQueues(cfg, states, events, m, key); }
    MovesUp(states, events, i, j, p, key);
  }

  // ---- Retries ----

  /** handleErr forgets the key: after a success, or with the budget spent. */
  ghost predicate Forgets(s: System, e: Event, key: Key) {
    && e.Settle? && s.Active(e.worker) && s.KeyOf(e.worker) == key && s.PcOf(e.worker).Returned?
    && !s.PcOf(e.worker).result.Panicked?
    && (s.PcOf(e.worker).result.Error? ==>
        s.queue.NumRequeues(key) >= MAX_RETRIES)
  }

  ghost predicate Retries(s: System, e: Event, key: Key) {
    e.Retry? && Works(s, e.worker, key)
  }

  /** Rate-limited adds of the key from event i on, before event j. */
  ghost function RetryCount(states: seq<System>, events: seq<Event>, i: nat, j: nat, key: Key): nat
    requires i <= j <= |events| < |states|
  {
    if i == j then 0
    else RetryCount(states, events, i, j - 1, key) + if Retries(states[j - 1], events[j - 1], key) then 1 else 0
  }

  lemma CounterStep(cfg: Config, s: System, e: Event, key: Key)
    requires Enabled(cfg, s, e) && e != Crash && !Forgets(s, e, key)
    ensures Apply(cfg, s, e).queue.NumRequeues(key) == s.queue.NumRequeues(key) + if Retries(s, e, key) then 1 else 0
  {}

  /** The counter moves at event m as the retries say. */
  ghost predicate Moves(states: seq<System>, events: seq<Event>, m: nat, key: Key) {
    m < |events| && |events| < |states|
    && states[m + 1].queue.NumRequeues(key)
       == states[m].queue.NumRequeues(key) + if Retries(states[m], events[m], key) then 1 else 0
  }

  lemma CounterMoves(cfg: Config, states: seq<System>, events: seq<Event>, m: nat, key: Key)
    requires Run(cfg, states, events) && m < |events| && events[m] != Crash && !Forgets(states[m], events[m], key)
    ensures Moves(states, events, m, key)
  {
    assert Enabled(cfg, states[m], events[m]) && states[m + 1] == Apply(cfg, states[m], events[m]);
    CounterStep(cfg, states[m], events[m], key);
  }

  lemma {:induction false} MovesAddUp(states: seq<System>, events: seq<Event>, i: nat, j: nat, key: Key)
    requires i <= j <= |events| < |states| && forall m: nat :: i <= m < j ==> Moves(states, events, m, key)
    ensures states[j].queue.NumRequeues(key) == states[i].queue.NumRequeues(key) + RetryCount(states, events, i, j, key)
  {
    if i < j {
      MovesAddUp(states, events, i, j - 1, key);
      assert Moves(states, events, j - 1, key);
    }
  }

  lemma CounterCountsRetries(cfg: Config, states: seq<System>, events: seq<Event>, i: nat, j: nat, key: Key)
    requires Run(cfg, states, events) && i <= j <= |events|
    requires forall m :: i <= m < j ==> events[m] != Crash && !Forgets(states[m], events[m], key)
    ensures states[j].queue.NumRequeues(key) == states[i].queue.NumRequeues(key) + RetryCount(states, events, i, j, key)
  {
    forall m: nat | i <= m < j ensures Moves(states, events, m, key) { CounterMoves(cfg, states, events, m, key); }
    MovesAddUp(states, events, i, j, key);
  }

  /** Between two times its failures are forgotten, a key is re-added at most 15 times, whatever else is added. */
  lemma RetryBudget(cfg: Config, states: seq<System>, events: seq<Event>, i: nat, j: nat, key: Key)
    requires Run(cfg, states, events) && i <= j <= |events|
    requires forall m :: i <= m < j ==> events[m] != Crash && !Forgets(states[m], events[m], key)
    ensures RetryCount(states, events, i, j, key) <= 15
  {
    CounterCountsRetries(cfg, states, events, i, j, key);
    RunDisciplined(cfg, states, events, j);
  }

  /** No failures of the key are remembered here: at the start, after a restart, or when they have been forgotten. */
  ghost predicate StartsAfresh(states: seq<System>, events: seq<Event>, i: nat, key: Key)
    requires i <= |events| < |states|
  {
    i == 0 || events[i - 1] == Crash || Forgets(states[i - 1], events[i - 1], key)
  }

  /** A failing reconcile is dropped exactly when 15 re-adds have been made since the key started afresh. */
  lemma DropsSixteenthFailure(cfg: Config, states: seq<System>, events: seq<Event>, i: nat, j: nat, key: Key)
    requires Run(cfg, states, events) && i <= j < |events| && StartsAfresh(states, events, i, key)
    requires forall m :: i <= m < j ==> events[m] != Crash && !Forgets(states[m], events[m], key)
    requires events[j].Settle? && Works(states[j], events[j].worker, key)
    requires states[j].PcOf(events[j].worker).result.Error?
    ensures Forgets(states[j], events[j], key) <==> RetryCount(states, events, i, j, key) == 15
    ensures Forgets(states[j], events[j], key) <==> states[j + 1].At(events[j].worker, Releasing)
  {
    if i > 0 { assert Enabled(cfg, states[i - 1], events[i - 1]); }
    assert Enabled(cfg, states[j], events[j]);
    CounterCountsRetries(cfg, states, events, i, j, key);
    RunDisciplined(cfg, states, events, j);
  }

  /** Every backoff the queue ever asks for is uncapped, and at most 5 ms × 2^14. */
  lemma BackoffInRuns(cfg: Config, states: seq<System>, events: seq<Event>, n: nat, key: Key)
    requires Run(cfg, states, events) && n < |events| && Retries(states[n], events[n], key)
    ensures var failures := states[n].queue.NumRequeues(key);
            Backoff(failures) == 5_000_000 * Pow2(failures) <= 81_920_000_000
  {
    RunDisciplined(cfg, states, events, n);
    assert Enabled(cfg, states[n], events[n]);
    var failures := states[n].queue.NumRequeues(key);
    BackoffDoubles(failures);
    Pow2Monotone(failures, 14);
    assert Pow2(5) == 32 && Pow2(10) == 1024 && Pow2(14) == 16384;
  }
}
