/** The controller queues strings, the system keys: the two queues do the same. */
module KeyQueues {
  import opened Types
  import opened Keys
  import opened WorkQueues

  function Strings(keys: set<Key>): set<string> { set k | k in keys :: MetaKey(k) }

  ghost predicate PlainQueue(q: Queue<Key>) {
    && (forall i :: 0 <= i < |q.queue| ==> Plain(q.queue[i]))
    && (forall k :: k in q.dirty + q.processing + q.failures.Keys + q.delayed ==> Plain(k))
  }

  /** The one holds the strings of the other's keys. */
  ghost predicate Represents(s: Queue<string>, q: Queue<Key>) {
    && PlainQueue(q)
    && |s.queue| == |q.queue| && (forall i :: 0 <= i < |q.queue| ==> s.queue[i] == MetaKey(q.queue[i]))
    && s.dirty == Strings(q.dirty) && s.processing == Strings(q.processing) && s.delayed == Strings(q.delayed)
    && s.failures.Keys == Strings(q.failures.Keys)
    && (forall k :: k in q.failures ==> s.failures[MetaKey(k)] == q.failures[k])
    && s.shuttingDown == q.shuttingDown
  }

  lemma MetaKeyInjective(j: Key, k: Key)
    requires Plain(j) && Plain(k) && MetaKey(j) == MetaKey(k)
    ensures j == k
  {
    KeyRoundTrip(j);
    KeyRoundTrip(k);
  }

  /** A plain key is in a set exactly when its string is among the strings. */
  lemma InStrings(key: Key, keys: set<Key>)
    requires Plain(key) && forall k :: k in keys ==> Plain(k)
    ensures MetaKey(key) in Strings(keys) <==> key in keys
    ensures Strings(keys + {key}) == Strings(keys) + {MetaKey(key)}
    ensures Strings(keys - {key}) == Strings(keys) - {MetaKey(key)}
  {
    forall k | k in keys && MetaKey(k) == MetaKey(key) ensures k == key { MetaKeyInjective(k, key); }
  }

  lemma AddRepresents(s: Queue<string>, q: Queue<Key>, key: Key)
    requires Represents(s, q) && Plain(key)
    ensures Represents(s.Add(MetaKey(key)), q.Add(key))
  {
    InStrings(key, q.dirty);
    InStrings(key, q.processing);
  }

  lemma FireRepresents(s: Queue<string>, q: Queue<Key>, key: Key)
    requires Represents(s, q) && Plain(key)
    ensures Represents(s.Fire(MetaKey(key)), q.Fire(key))
  {
    AddRepresents(s, q, key);
    InStrings(key, q.delayed);
  }

  lemma GetRepresents(s: Queue<string>, q: Queue<Key>)
    requires Represents(s, q) && q.queue != []
    ensures s.queue[0] == MetaKey(q.queue[0]) && Represents(s.Get(), q.Get())
  {
    InStrings(q.queue[0], q.dirty);
    InStrings(q.queue[0], q.processing);
  }

  lemma DoneRepresents(s: Queue<string>, q: Queue<Key>, key: Key)
    requires Represents(s, q) && Plain(key)
    ensures Represents(s.Done(MetaKey(key)), q.Done(key))
  {
    InStrings(key, q.dirty);
    InStrings(key, q.processing);
  }

  lemma ForgetRepresents(s: Queue<string>, q: Queue<Key>, key: Key)
    requires Represents(s, q) && Plain(key)
    ensures Represents(s.Forget(MetaKey(key)), q.Forget(key))
  {
    InStrings(key, q.failures.Keys);
    forall k | k in q.failures && k != key ensures MetaKey(k) != MetaKey(key) {
      if MetaKey(k) == MetaKey(key) { MetaKeyInjective(k, key); }
    }
    assert q.Forget(key).failures.Keys == q.failures.Keys - {key};
    assert s.Forget(MetaKey(key)).failures.Keys == s.failures.Keys - {MetaKey(key)};
  }

  lemma RetryRepresents(s: Queue<string>, q: Queue<Key>, key: Key)
    requires Represents(s, q) && Plain(key)
    ensures s.NumRequeues(MetaKey(key)) == q.NumRequeues(key)
    ensures Represents(s.AddRateLimited(MetaKey(key)), q.AddRateLimited(key))
  {
    InStrings(key, q.failures.Keys);
    InStrings(key, q.delayed);
    forall k | k in q.failures && k != key ensures MetaKey(k) != MetaKey(key) {
      if MetaKey(k) == MetaKey(key) { MetaKeyInjective(k, key); }
    }
    assert q.AddRateLimited(key).failures.Keys == q.failures.Keys + {key};
    assert s.AddRateLimited(MetaKey(key)).failures.Keys == s.failures.Keys + {MetaKey(key)};
  }

  /** So what the controller's methods do to their queue, an event, a turn's start, its error handling and its end do to
      the system's. */
  lemma QueuesAgree(s: Queue<string>, q: Queue<Key>, key: Key, err: bool)
    requires Represents(s, q) && Plain(key)
    ensures Represents(s.Add(MetaKey(key)), q.Add(key)) && Represents(s.Fire(MetaKey(key)), q.Fire(key))
    ensures q.queue != [] ==> s.queue[0] == MetaKey(q.queue[0]) && Represents(s.Get(), q.Get())
    ensures Represents(Handled(s, err, MetaKey(key)), Handled(q, err, key))
    ensures Represents(s.Done(MetaKey(key)), q.Done(key))
  {
    AddRepresents(s, q, key);
    FireRepresents(s, q, key);
    if q.queue != [] { GetRepresents(s, q); }
    RetryRepresents(s, q, key);
    ForgetRepresents(s, q, key);
    DoneRepresents(s, q, key);
  }
}
