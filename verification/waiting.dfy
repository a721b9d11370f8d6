/** The two bounded polling loops, specified over a whole stream of observations and the time they take. */
module Waiting {
  import opened Types
  import opened Protocol

  // ---- Waiting for an operation; times are in milliseconds ----

  const GCE_TIMEOUT := 10 * 60 * 1000
  const GCE_WAIT_SLEEP := 5 * 1000

  datatype Observation = Seen(op: Operation) | Lost(text: string)

  /** Where an observation takes the automaton. */
  function Observe(vm: VM, purpose: Purpose, observed: Observation): Pc {
    match observed
    case Seen(op) => Check(vm, purpose, op)
    case Lost(text) => OpFailed(vm, purpose, text)
  }

  /** One round of the loop: a select between the deadline and the sleep, then a poll.
      `wakes` settles a select whose two channels are ready together; `lapse` is the text of a timeout. */
  datatype Round = Round(wakes: bool, lapse: string, observed: Observation, latency: nat)

  datatype Timeline = Timeline(first: Operation, start: nat, rounds: nat -> Round, base: nat) {
    function Deadline(): nat { start + GCE_TIMEOUT }

    /** What the i-th check sees; the operation as submitted comes first. */
    function Observed(i: nat): Observation {
      if i == 0 then Seen(first) else rounds(base + i - 1).observed
    }

    /** When the i-th check happens, if it does. */
    function Time(i: nat): nat {
      if i == 0 then start else Time(i - 1) + GCE_WAIT_SLEEP + rounds(base + i - 1).latency
    }

    /** The select after check i lets the loop poll again. */
    predicate Wakes(i: nat) { Rouses(Time(i), Deadline(), rounds(base + i).wakes) }

    /** Check i neither succeeds nor fails. */
    predicate Quiet(i: nat) {
      Observed(i).Seen? && OpError(Observed(i).op).None? && !Observed(i).op.Done()
    }

    /** Checks 0 to i - 1 were quiet and their sleeps ended before the deadline. */
    ghost predicate Reaches(i: nat) { forall j :: 0 <= j < i ==> Quiet(j) && Wakes(j) }

    /** The loop ends at check n with this error. */
    ghost predicate Ends(n: nat, err: Option<string>) {
      && Reaches(n)
      && err == (match Observed(n)
                 case Lost(text) => Some(text)
                 case Seen(op) =>
                   if OpError(op).Some? then OpError(op)
                   else if op.Done() then None
                   else Some(rounds(base + n).lapse))
      && !(Quiet(n) && Wakes(n))
    }

    /** Some check within the deadline sees the operation done without errors, all earlier ones being quiet. */
    ghost predicate Succeeds() {
      exists n: nat :: Reaches(n) && Observed(n).Seen? && OpError(Observed(n).op).None? && Observed(n).op.Done()
    }
  }

  predicate Rouses(now: nat, deadline: nat, wakes: bool) {
    now < deadline && (now + GCE_WAIT_SLEEP < deadline || (now + GCE_WAIT_SLEEP == deadline && wakes))
  }

  lemma {:induction false} TimeAdvances(t: Timeline, n: nat)
    ensures t.Time(n) >= t.start + n * GCE_WAIT_SLEEP
  {
    if n > 0 { TimeAdvances(t, n - 1); }
  }

  /** However the service answers, at most 120 polls fit before the deadline. */
  lemma PollBudget(t: Timeline, n: nat)
    requires t.Reaches(n)
    ensures n <= 600_000 / 5_000 == 120
  {
    if n > 0 {
      TimeAdvances(t, n - 1);
      assert t.Wakes(n - 1);
    }
  }

  /** A quiet check is followed by another poll if five seconds end before ten minutes since the start are over, and by
      the timeout if they end after that. */
  lemma PollsOnInTime(t: Timeline, n: nat)
    requires t.Reaches(n) && t.Quiet(n)
    ensures t.Time(n) + 5_000 < t.start + 600_000 ==> t.Reaches(n + 1)
    ensures t.Time(n) + 5_000 < t.start + 600_000 ==> t.Time(n + 1) == t.Time(n) + 5_000 + t.rounds(t.base + n).latency
    ensures t.Time(n) + 5_000 > t.start + 600_000 ==> t.Ends(n, Some(t.rounds(t.base + n).lapse))
  {}

  /** The end of the loop is determined, and it is free of error exactly when the operation is seen to succeed. */
  lemma EndIsFirstTerminal(t: Timeline, n: nat, err: Option<string>)
    requires t.Ends(n, err)
    ensures err.None? <==> t.Succeeds()
    ensures forall m: nat, e :: t.Ends(m, e) ==> m == n && e == err
  {
    if t.Succeeds() {
      var m: nat :| t.Reaches(m) && t.Observed(m).Seen? && OpError(t.Observed(m).op).None? && t.Observed(m).op.Done();
      assert !t.Quiet(m);
      assert n < m ==> t.Quiet(n) && t.Wakes(n);
      assert m < n ==> t.Quiet(m);
    }
    forall m: nat, e | t.Ends(m, e) ensures m == n && e == err {
      assert n < m ==> t.Quiet(n) && t.Wakes(n);
      assert m < n ==> t.Quiet(m) && t.Wakes(m);
    }
  }

  // ---- Connecting over SSH ----

  datatype SshConfig = SshConfig(retries: int, delaySeconds: int, timeoutSeconds: int)

  /** One attempt: how long the host takes to accept (if it does), and what the handshake then does. */
  datatype Attempt = Attempt(accepts: bool, needs: nat, shakes: bool, shaking: nat)

  /** A positive timeout cuts a dial short; zero is no timeout at all; a negative one has passed already. */
  function DialTime(a: Attempt, timeoutSeconds: int): nat {
    if timeoutSeconds == 0 || 0 <= a.needs <= timeoutSeconds * 1000 then a.needs
    else if timeoutSeconds < 0 then 0
    else timeoutSeconds * 1000
  }

  predicate DialSucceeds(a: Attempt, timeoutSeconds: int) {
    a.accepts && (timeoutSeconds == 0 || a.needs <= timeoutSeconds * 1000)
  }

  function SleepTime(delaySeconds: int): nat { if delaySeconds < 0 then 0 else delaySeconds * 1000 }

  /** The attempts of one call, the first being number `base` of the stream. */
  datatype Attempts = Attempts(cfg: SshConfig, stream: nat -> Attempt, base: nat) {
    predicate Refused(i: nat) { !DialSucceeds(stream(base + i), cfg.timeoutSeconds) }

    /** Attempt i is made, it connects, and the handshake succeeds. */
    ghost predicate ConnectsAt(i: nat) {
      i < cfg.retries && (forall j :: 0 <= j < i ==> Refused(j)) && !Refused(i) && stream(base + i).shakes
    }

    /** Dialling and sleeping in the first n attempts when all of them are refused. */
    function Spent(n: nat): nat {
      if n == 0 then 0
      else Spent(n - 1) + DialTime(stream(base + n - 1), cfg.timeoutSeconds) + SleepTime(cfg.delaySeconds)
    }
  }

  /** With a positive timeout, time is bounded by attempts × (timeout + delay). */
  lemma {:induction false} SpentBounded(a: Attempts, n: nat)
    requires a.cfg.timeoutSeconds > 0 && a.cfg.delaySeconds >= 0
    ensures a.Spent(n) <= n * (a.cfg.timeoutSeconds * 1000 + a.cfg.delaySeconds * 1000)
  {
    if n > 0 {
      SpentBounded(a, n - 1);
      var each := a.cfg.timeoutSeconds * 1000 + a.cfg.delaySeconds * 1000;
      assert n * each == (n - 1) * each + each;
    }
  }

  /** Whatever the host does, all the attempts together keep to attempts × (timeout + delay) exactly when the timeout
      is positive: zero is no timeout at all, and a negative one saves no time on the delays. */
  lemma TimeoutBoundsLoopExactly(cfg: SshConfig)
    requires cfg.retries > 0 && cfg.delaySeconds >= 0
    ensures (forall a: Attempts :: a.cfg == cfg ==>
               a.Spent(cfg.retries) <= cfg.retries * (cfg.timeoutSeconds * 1000 + cfg.delaySeconds * 1000))
            <==> cfg.timeoutSeconds > 0
  {
    if cfg.timeoutSeconds > 0 {
      forall a: Attempts | a.cfg == cfg
        ensures a.Spent(cfg.retries) <= cfg.retries * (cfg.timeoutSeconds * 1000 + cfg.delaySeconds * 1000)
      {
        SpentBounded(a, cfg.retries);
      }
    } else {
      var slow := Attempts(cfg, (i: nat) => Attempt(false, 1, false, 0), 0);
      SpentBySlowHost(slow, cfg.retries);
    }
  }

  /** A host that refuses after a millisecond outlasts every timeout that is not positive. */
  lemma {:induction false} SpentBySlowHost(a: Attempts, n: nat)
    requires a.cfg.timeoutSeconds <= 0 && a.cfg.delaySeconds >= 0
    requires forall i: nat :: a.stream(i) == Attempt(false, 1, false, 0)
    ensures a.Spent(n) >= n * (a.cfg.timeoutSeconds * 1000 + a.cfg.delaySeconds * 1000)
    ensures n > 0 ==> a.Spent(n) > n * (a.cfg.timeoutSeconds * 1000 + a.cfg.delaySeconds * 1000)
  {
    if n > 0 {
      SpentBySlowHost(a, n - 1);
      var each := a.cfg.timeoutSeconds * 1000 + a.cfg.delaySeconds * 1000;
      assert n * each == (n - 1) * each + each;
    }
  }

  /** The bound is reached by a host that would accept too late, if at all: every attempt is then refused, and takes the
      whole timeout and the whole delay. */
  lemma {:induction false} SpentBySilentHost(a: Attempts, n: nat)
    requires a.cfg.timeoutSeconds > 0 && a.cfg.delaySeconds >= 0
    requires forall i: nat :: a.stream(i).needs > a.cfg.timeoutSeconds * 1000
    ensures a.Spent(n) == n * (a.cfg.timeoutSeconds * 1000 + a.cfg.delaySeconds * 1000)
    ensures forall i: nat :: i < n ==> a.Refused(i)
  {
    if n > 0 {
      SpentBySilentHost(a, n - 1);
      var each := a.cfg.timeoutSeconds * 1000 + a.cfg.delaySeconds * 1000;
      assert n * each == (n - 1) * each + each;
    }
  }
}
