/** The string set of apimachinery: built from a list, listed back in sorted order. */
module StringSets {

  /** The order in which Go compares strings. */
  predicate Less(a: string, b: string) {
    if b == [] then false
    else if a == [] then true
    else if a[0] != b[0] then a[0] < b[0]
    else Less(a[1..], b[1..])
  }

  lemma {:induction false} LessIrreflexive(a: string)
    ensures !Less(a, a)
  {
    if a != [] { LessIrreflexive(a[1..]); }
  }

  lemma {:induction false} LessTransitive(a: string, b: string, c: string)
    requires Less(a, b) && Less(b, c)
    ensures Less(a, c)
  {
    if a != [] && a[0] == b[0] == c[0] { LessTransitive(a[1..], b[1..], c[1..]); }
  }

  lemma {:induction false} LessTotal(a: string, b: string)
    ensures a == b || Less(a, b) || Less(b, a)
  {
    if a != [] && b != [] && a[0] == b[0] {
      LessTotal(a[1..], b[1..]);
      assert a == [a[0]] + a[1..] && b == [b[0]] + b[1..];
    }
  }

  /** The strings agree up to k, where one ends or has the smaller character. */
  ghost predicate DifferAt(a: string, b: string, k: nat) {
    && k <= |a| && k < |b| && a[..k] == b[..k] && (k == |a| || a[k] < b[k])
  }

  lemma FirstAgree(a: string, b: string, k: nat)
    requires DifferAt(a, b, k)
    ensures k > 0 ==> a != [] && b != [] && a[0] == b[0]
  {
    if k > 0 { assert a[..k][0] == b[..k][0]; }
  }

  /** One string comes before another exactly when it is a proper prefix, or smaller where they first differ. */
  lemma {:induction false} LessExact(a: string, b: string)
    ensures Less(a, b) <==> exists k: nat :: DifferAt(a, b, k)
  {
    if a == [] || b == [] || a[0] != b[0] {
      if Less(a, b) { assert DifferAt(a, b, 0); }
      forall k: nat | DifferAt(a, b, k) ensures Less(a, b) { FirstAgree(a, b, k); }
    } else {
      LessExact(a[1..], b[1..]);
      LessShifts(a, b);
    }
  }

  lemma LessShifts(a: string, b: string)
    requires a != [] && b != [] && a[0] == b[0]
    ensures (exists k: nat :: DifferAt(a, b, k)) <==> (exists k: nat :: DifferAt(a[1..], b[1..], k))
  {
    forall k: nat | DifferAt(a, b, k) ensures exists j: nat :: DifferAt(a[1..], b[1..], j) {
      assert k > 0;
      assert a[1..][..k - 1] == a[..k][1..] && b[1..][..k - 1] == b[..k][1..];
      assert DifferAt(a[1..], b[1..], k - 1);
    }
    forall k: nat | DifferAt(a[1..], b[1..], k) ensures exists j: nat :: DifferAt(a, b, j) {
      assert a[..k + 1] == [a[0]] + a[1..][..k] && b[..k + 1] == [b[0]] + b[1..][..k];
      assert DifferAt(a, b, k + 1);
    }
  }

  ghost predicate StrictlySorted(l: seq<string>) {
    forall i, j :: 0 <= i < j < |l| ==> Less(l[i], l[j])
  }

  ghost function Elements(l: seq<string>): set<string> { set x | x in l }

  /** Sorted duplicate-free lists are determined by their elements. */
  lemma {:induction false} SortedUnique(a: seq<string>, b: seq<string>)
    requires StrictlySorted(a) && StrictlySorted(b) && Elements(a) == Elements(b)
    ensures a == b
  {
    NoElements(a);
    NoElements(b);
    if a != [] {
      assert a[0] in Elements(b);
      assert b[0] in Elements(a);
      var i :| 0 <= i < |b| && b[i] == a[0];
      var j :| 0 <= j < |a| && a[j] == b[0];
      if i != 0 && j != 0 { LessTransitive(a[0], b[0], a[0]); LessIrreflexive(a[0]); }
      HeadElsewhere(a);
      HeadElsewhere(b);
      assert Elements(a[1..]) == Elements(a) - {a[0]};
      assert Elements(b[1..]) == Elements(b) - {b[0]};
      SortedUnique(a[1..], b[1..]);
      assert a == [a[0]] + a[1..] && b == [b[0]] + b[1..];
    }
  }

  lemma ElementsAppend(a: seq<string>, b: seq<string>)
    ensures Elements(a + b) == Elements(a) + Elements(b)
  {}

  lemma NoElements(l: seq<string>)
    ensures Elements(l) == {} <==> l == []
  {
    if l != [] { assert l[0] in Elements(l); }
  }

  lemma HeadElsewhere(l: seq<string>)
    requires StrictlySorted(l) && l != []
    ensures l[0] !in l[1..]
  {
    LessIrreflexive(l[0]);
    forall i | 0 <= i < |l[1..]| ensures l[1..][i] != l[0] { assert l[1..][i] == l[i + 1]; }
  }

  /** Where x goes in a sorted list. */
  function Insert(x: string, l: seq<string>): (r: seq<string>)
    requires StrictlySorted(l)
    ensures StrictlySorted(r) && Elements(r) == Elements(l) + {x}
  {
    if l == [] then [x]
    else if x == l[0] then l
    else if Less(x, l[0]) then
      assert forall i :: 0 <= i < |l| ==> Less(x, l[i]) by {
        forall i | 0 < i < |l| ensures Less(x, l[i]) { LessTransitive(x, l[0], l[i]); }
      }
      [x] + l
    else
      var rest := Insert(x, l[1..]);
      LessTotal(x, l[0]);
      assert forall y :: y in rest ==> Less(l[0], y) by {
        forall y | y in rest ensures Less(l[0], y) {
          assert y in Elements(rest);
          assert y == x || y in l[1..];
        }
      }
      ElementsAppend([l[0]], rest);
      ElementsAppend([l[0]], l[1..]);
      assert l == [l[0]] + l[1..];
      [l[0]] + rest
  }

  /** What listing the set of the given strings returns: sorted, each once. */
  function Canonical(l: seq<string>): (r: seq<string>)
    ensures StrictlySorted(r) && Elements(r) == Elements(l)
  {
    if l == [] then [] else
      assert l == [l[0]] + l[1..];
      Insert(l[0], Canonical(l[1..]))
  }

  /** The list of a set: its elements in any order, then sorted. */
  method List(s: set<string>) returns (l: seq<string>)
    ensures StrictlySorted(l) && Elements(l) == s
  {
    var rest, res := s, [];
    while rest != {}
      invariant Elements(res) + rest == s
      decreases rest
    {
      var x :| x in rest;
      res, rest := res + [x], rest - {x};
    }
    l := Canonical(res);
  }
}
