/** Queue keys: "namespace/name", or the bare name of an object without a namespace. */
module Keys {
  import opened Types

  function Split(s: string): (parts: seq<string>)
    ensures |parts| >= 1
  {
    if s == "" then [""]
    else
      var rest := Split(s[1..]);
      if s[0] == '/' then [""] + rest else [[s[0]] + rest[0]] + rest[1..]
  }

  /** None for a key with more than one separator. */
  function SplitKey(s: string): Option<Key> {
    var parts := Split(s);
    if |parts| == 1 then Some(Key("", parts[0]))
    else if |parts| == 2 then Some(Key(parts[0], parts[1]))
    else None
  }

  function MetaKey(key: Key): string {
    if |key.namespace| > 0 then key.namespace + "/" + key.name else key.name
  }

  lemma {:induction false} SplitPlain(s: string)
    requires '/' !in s
    ensures Split(s) == [s]
  {
    if s != "" {
      SplitPlain(s[1..]);
      assert [s[0]] + s[1..] == s;
    }
  }

  lemma {:induction false} SplitJoined(a: string, b: string)
    requires '/' !in a && '/' !in b
    ensures Split(a + "/" + b) == [a, b]
  {
    var s := a + "/" + b;
    if a == "" {
      assert s[1..] == b;
      SplitPlain(b);
    } else {
      assert s[1..] == a[1..] + "/" + b;
      SplitJoined(a[1..], b);
      assert [a[0]] + a[1..] == a;
    }
  }

  /** The parts put together again, with their separators. */
  function Rejoined(parts: seq<string>): string
    requires parts != []
  {
    if |parts| == 1 then parts[0] else parts[0] + "/" + Rejoined(parts[1..])
  }

  /** The parts are what stands between the slashes. */
  lemma {:induction false} SplitExact(s: string)
    ensures Rejoined(Split(s)) == s && forall i :: 0 <= i < |Split(s)| ==> '/' !in Split(s)[i]
  {
    if s != "" {
      var parts, rest := Split(s), Split(s[1..]);
      SplitExact(s[1..]);
      assert s == [s[0]] + s[1..];
      if s[0] == '/' {
        assert parts[1..] == rest;
      } else {
        assert forall i :: 1 <= i < |parts| ==> parts[i] == rest[i];
        if |rest| > 1 { assert parts[1..] == rest[1..]; }
      }
    }
  }

  /** A key is understood exactly when it has at most one slash, as what stands before and after it. */
  lemma SplitKeyExact(s: string, key: Key)
    ensures SplitKey(s) == Some(key) <==>
            Plain(key) && ((key.namespace == "" && s == key.name) || s == key.namespace + "/" + key.name)
  {
    SplitExact(s);
    var parts := Split(s);
    if |parts| == 2 { assert Rejoined(parts) == parts[0] + "/" + parts[1]; }
    if Plain(key) && s == key.namespace + "/" + key.name { SplitJoined(key.namespace, key.name); }
    if Plain(key) && s == key.name { SplitPlain(key.name); }
  }

  /** API names contain no slash. */
  predicate Plain(key: Key) { '/' !in key.namespace && '/' !in key.name }

  /** What enqueue puts in the queue, reconcile takes apart again. */
  lemma KeyRoundTrip(key: Key)
    requires Plain(key)
    ensures SplitKey(MetaKey(key)) == Some(key)
  {
    if |key.namespace| > 0 { SplitJoined(key.namespace, key.name); } else { SplitPlain(key.name); }
  }
}
