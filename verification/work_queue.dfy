/** The rate-limited work queue: its state as a value, and the class that keeps it. */
module WorkQueues {
  import opened Types

  // ---- Exponential backoff; times are in nanoseconds ----

  const BASE_DELAY := 5 * 1000 * 1000
  const MAX_DELAY := 1000 * 1000 * 1000 * 1000
  const MAX_INT64 := 0x7FFF_FFFF_FFFF_FFFF

  function Pow2(n: nat): nat { if n == 0 then 1 else 2 * Pow2(n - 1) }

  /** The delay before the next attempt at an item that has failed `failures` times before. */
  function Backoff(failures: nat): nat {
    var backoff := BASE_DELAY * Pow2(failures);
    if backoff > MAX_INT64 then MAX_DELAY
    else if backoff > MAX_DELAY then MAX_DELAY
    else backoff
  }

  function TotalBackoff(retries: nat): nat {
    if retries == 0 then 0 else TotalBackoff(retries - 1) + Backoff(retries - 1)
  }

  /** The last failure count whose delay is still below the cap of 1000 seconds. */
  const LAST_UNCAPPED := 17

  lemma {:induction false} Pow2Monotone(m: nat, n: nat)
    requires m <= n
    ensures Pow2(m) <= Pow2(n)
  {
    if m < n { Pow2Monotone(m, n - 1); }
  }

  lemma Pow2AtCap()
    ensures Pow2(LAST_UNCAPPED) == 0x2_0000
  {
    assert Pow2(5) == 32;
    assert Pow2(10) == 1024;
    assert Pow2(15) == 0x8000;
  }

  /** Delays double from 5 ms exactly until the cap. */
  lemma BackoffDoubles(failures: nat)
    ensures failures <= 17 ==> Backoff(failures) == 5_000_000 * Pow2(failures)
    ensures failures > 17 ==> Backoff(failures) == 1_000_000_000_000 < 5_000_000 * Pow2(failures)
  {
    Pow2AtCap();
    if failures <= LAST_UNCAPPED {
      Pow2Monotone(failures, LAST_UNCAPPED);
    } else {
      Pow2Monotone(LAST_UNCAPPED + 1, failures);
    }
  }

  /** How far the delays fall short of doubling adds up. */
  lemma Shortfall(n: nat)
    ensures BASE_DELAY * (Pow2(n + 1) - 1) - TotalBackoff(n + 1)
            == (BASE_DELAY * (Pow2(n) - 1) - TotalBackoff(n)) + (BASE_DELAY * Pow2(n) - Backoff(n))
  {}

  /** The delays of R retries sum to 5 ms × (2^R - 1) exactly while none of them is capped. */
  lemma {:induction false} TotalBackoffExact(retries: nat)
    ensures TotalBackoff(retries) == 5_000_000 * (Pow2(retries) - 1) <==> retries <= 18
    ensures TotalBackoff(retries) <= 5_000_000 * (Pow2(retries) - 1)
  {
    if retries > 0 {
      TotalBackoffExact(retries - 1);
      BackoffDoubles(retries - 1);
      Shortfall(retries - 1);
    }
  }

  // ---- The queue's state ----

  datatype Queue<T(==,!new)> = Queue(queue: seq<T>, dirty: set<T>, processing: set<T>,
                                failures: map<T, nat>, delayed: set<T>, shuttingDown: bool) {
    function NumRequeues(item: T): nat { if item in failures then failures[item] else 0 }

    /** An added item is dirty; it also joins the queue unless it is there or being processed. */
    function Add(item: T): Queue<T> {
      if shuttingDown || item in dirty then this
      else if item in processing then this.(dirty := dirty + {item})
      else this.(dirty := dirty + {item}, queue := queue + [item])
    }

    function Get(): Queue<T>
      requires queue != []
    {
      this.(queue := queue[1..], processing := processing + {queue[0]}, dirty := dirty - {queue[0]})
    }

    function Done(item: T): Queue<T> {
      this.(processing := processing - {item}, queue := if item in dirty then queue + [item] else queue)
    }

    /** The failure is counted even while shutting down. */
    function AddRateLimited(item: T): Queue<T> {
      this.(failures := failures[item := NumRequeues(item) + 1],
            delayed := if shuttingDown then delayed else delayed + {item})
    }

    function Forget(item: T): Queue<T> { this.(failures := failures - {item}) }

    /** The delay of an item has passed. */
    function Fire(item: T): Queue<T> { Add(item).(delayed := delayed - {item}) }

    /** Each waiting item is queued once; an item is queued exactly when it is dirty and nobody processes it. */
    ghost predicate Valid() {
      && (forall i, j :: 0 <= i < j < |queue| ==> queue[i] != queue[j])
      && (forall x :: x in queue <==> x in dirty && x !in processing)
    }
  }

  /** What handleErr leaves: a success forgets the failures, an error retries the item until its budget is spent. */
  function Handled<T(!new)>(q: Queue<T>, err: bool, item: T): Queue<T> {
    if err && q.NumRequeues(item) < MAX_RETRIES then q.AddRateLimited(item) else q.Forget(item)
  }

  function Empty<T(==,!new)>(): Queue<T> { Queue([], {}, {}, map[], {}, false) }

  /** A dirty item waits in the queue, or its present processing will put it back. */
  lemma DoneKeepsValid<T(!new)>(q: Queue<T>, item: T)
    requires q.Valid() && item in q.processing
    ensures q.Done(item).Valid()
  {
    var r := q.Done(item);
    if item in q.dirty { assert forall i :: 0 <= i < |q.queue| ==> r.queue[i] == q.queue[i]; }
  }

  lemma GetKeepsValid<T(!new)>(q: Queue<T>)
    requires q.Valid() && q.queue != []
    ensures q.Get().Valid() && q.queue[0] !in q.processing
  {
    assert q.queue[0] in q.queue;
    assert forall x :: x in q.queue <==> x == q.queue[0] || x in q.queue[1..];
  }

  lemma AddKeepsValid<T(!new)>(q: Queue<T>, item: T)
    requires q.Valid()
    ensures q.Add(item).Valid() && q.Fire(item).Valid()
  {}

  /** While shutting down nothing is added any more, now or later; failures are still counted. */
  lemma ShutDownAddsNothing<T(!new)>(q: Queue<T>, item: T)
    requires q.shuttingDown
    ensures q.Add(item) == q
    ensures q.AddRateLimited(item) == q.(failures := q.failures[item := q.NumRequeues(item) + 1])
  {}

  // ---- The queue as the controller uses it ----

  /** `delayed` maps an item to the time it is to be added, the earliest asked for. */
  class WorkQueue<T(==,!new)> {
    var queue: seq<T>
    var dirty: set<T>
    var processing: set<T>
    var failures: map<T, nat>
    var delayed: map<T, nat>
    var shuttingDown: bool

    constructor ()
      ensures State() == Empty()
    {
      queue, dirty, processing, failures, delayed, shuttingDown := [], {}, {}, map[], map[], false;
    }

    ghost function State(): Queue<T>
      reads this
    {
      Queue(queue, dirty, processing, failures, delayed.Keys, shuttingDown)
    }

    method Add(item: T)
      modifies this
      ensures State() == old(State()).Add(item)
      ensures delayed == old(delayed)
    {
      if shuttingDown { return; }
      if item in dirty { return; }
      dirty := dirty + {item};
      if item in processing { return; }
      queue := queue + [item];
    }

    /** The call returns only once there is an item or the queue is shutting down; None tells the worker to quit. */
    method Get() returns (item: Option<T>)
      requires queue != [] || shuttingDown
      modifies this
      ensures if old(queue) == [] then item == None && State() == old(State())
              else item == Some(old(queue)[0]) && State() == old(State()).Get()
    {
      if queue == [] { return None; }
      item := Some(queue[0]);
      queue := queue[1..];
      processing := processing + {item.value};
      dirty := dirty - {item.value};
    }

    method Done(item: T)
      modifies this
      ensures State() == old(State()).Done(item)
    {
      processing := processing - {item};
      if item in dirty {
        queue := queue + [item];
      }
    }

    /** Items still queued are handed out, but no more are added. */
    method ShutDown()
      modifies this`shuttingDown
      ensures State() == old(State()).(shuttingDown := true)
    {
      shuttingDown := true;
    }

    method NumRequeues(item: T) returns (n: nat)
      ensures n == State().NumRequeues(item)
    {
      return if item in failures then failures[item] else 0;
    }

    method Forget(item: T)
      modifies this
      ensures State() == old(State()).Forget(item)
    {
      failures := failures - {item};
    }

    /** The worse of the item's own backoff and the delay the shared token bucket imposes. */
    method When(item: T, bucketDelay: nat) returns (delay: nat)
      modifies this
      ensures delay >= bucketDelay && delay >= Backoff(old(State()).NumRequeues(item))
      ensures delay == bucketDelay || delay == Backoff(old(State()).NumRequeues(item))
      ensures State() == old(State()).(failures := old(failures)[item := old(State()).NumRequeues(item) + 1])
      ensures delayed == old(delayed)
    {
      var exp := if item in failures then failures[item] else 0;
      failures := failures[item := exp + 1];
      delay := 0;
      var calculated := Backoff(exp);
      if calculated > delay { delay := calculated; }
      if bucketDelay > delay { delay := bucketDelay; }
    }

    method AddRateLimited(item: T, now: nat, bucketDelay: nat)
      modifies this
      ensures State() == old(State()).AddRateLimited(item)
      ensures var backoff := Backoff(old(State()).NumRequeues(item));
              var due := now + if backoff < bucketDelay then bucketDelay else backoff;
              delayed == if shuttingDown || (item in old(delayed) && old(delayed)[item] <= due) then old(delayed)
                         else old(delayed)[item := due]
    {
      var delay := When(item, bucketDelay);
      if shuttingDown { return; }
      var readyAt := now + delay;
      if item in delayed && delayed[item] <= readyAt { return; }
      delayed := delayed[item := readyAt];
    }
  }
}
