/** Optional values, used for dictionary lookups and conversions that may fail. */
module Wrappers {
  datatype Option<+T> = None | Some(value: T)
}

/** Generic sequence facts shared by the components. */
module Seqs {
  /** `a` is obtained from `b` by deleting elements (same elements, same order). */
  predicate Subsequence<T(==)>(a: seq<T>, b: seq<T>)
    decreases |b|
  {
    a == [] || (b != [] && ((a[0] == b[0] && Subsequence(a[1..], b[1..])) || Subsequence(a, b[1..])))
  }

  lemma {:induction false} SubsequenceElements<T>(a: seq<T>, b: seq<T>)
    requires Subsequence(a, b)
    ensures |a| <= |b|
    ensures forall x :: x in a ==> x in b
    decreases |b|
  {
    if a != [] {
      if a[0] == b[0] && Subsequence(a[1..], b[1..]) {
        SubsequenceElements(a[1..], b[1..]);
        assert a == [a[0]] + a[1..] && b == [b[0]] + b[1..];
      } else {
        SubsequenceElements(a, b[1..]);
        assert b == [b[0]] + b[1..];
      }
    }
  }
}

/**
 * Values as produced by a JSON decoder (and as held in the gateways' Python
 * dictionaries). A dictionary is the ordered list of its items: Python dicts
 * iterate in insertion order, and assigning to an existing key keeps its place.
 */
module Json {
  import opened Wrappers

  datatype Value =
    | Null
    | Bool(b: bool)
    | Int(i: int)
    | Float(r: real)
    | Str(s: string)
    | List(items: seq<Value>)
    | Dict(entries: seq<(string, Value)>)

  type Entries = seq<(string, Value)>

  /** `isinstance(v, (int, float))`; in Python `bool` is a subclass of `int`. */
  predicate IsNum(v: Value) {
    v.Bool? || v.Int? || v.Float?
  }

  /** The numeric value of an int, float or bool. */
  function Num(v: Value): real
    requires IsNum(v)
  {
    match v
    case Bool(b) => if b then 1.0 else 0.0
    case Int(i) => i as real
    case Float(r) => r
  }

  function Keys(m: Entries): set<string> {
    if m == [] then {} else {m[0].0} + Keys(m[1..])
  }

  /** No key occurs twice: true of every Python dict. */
  predicate DistinctKeys(m: Entries) {
    m == [] || (m[0].0 !in Keys(m[1..]) && DistinctKeys(m[1..]))
  }

  /** `m.get(k)`: the value stored under `k`, if any. */
  function Lookup(m: Entries, k: string): (r: Option<Value>)
    ensures r.Some? <==> k in Keys(m)
    ensures r.Some? ==> (k, r.value) in m
  {
    if m == [] then None else if m[0].0 == k then Some(m[0].1) else Lookup(m[1..], k)
  }

  /** `m.get(k, default)`. */
  function GetOr(m: Entries, k: string, default: Value): Value {
    match Lookup(m, k)
    case Some(v) => v
    case None => default
  }

  /** `m[k] = v`: replaces the value of an existing key in place, appends a new key. */
  function Put(m: Entries, k: string, v: Value): (r: Entries)
    ensures Keys(r) == Keys(m) + {k}
    ensures Lookup(r, k) == Some(v)
    ensures forall k' :: k' != k ==> Lookup(r, k') == Lookup(m, k')
    ensures forall e :: e in r ==> e in m || e == (k, v)
    ensures k !in Keys(m) ==> r == m + [(k, v)]
    ensures k in Keys(m) ==> |r| == |m|
    ensures DistinctKeys(m) ==> DistinctKeys(r)
  {
    if m == [] then [(k, v)]
    else if m[0].0 == k then [(k, v)] + m[1..]
    else [m[0]] + Put(m[1..], k, v)
  }

  /**
   * `m[k] = v` on an existing key overwrites its first (and, in a dict, only)
   * entry where it stands: every other entry keeps its place and its value.
   */
  lemma PutInPlace(m: Entries, k: string, v: Value)
    requires k in Keys(m)
    ensures exists i :: 0 <= i < |m| && m[i].0 == k && k !in Keys(m[..i]) && Put(m, k, v) == m[..i] + [(k, v)] + m[i + 1..]
  {
    var i := PutPosition(m, k, v);
  }

  /** The position `PutInPlace` speaks of: the first entry named `k`. */
  lemma {:induction false} PutPosition(m: Entries, k: string, v: Value) returns (i: nat)
    requires k in Keys(m)
    ensures i < |m| && m[i].0 == k && k !in Keys(m[..i])
    ensures Put(m, k, v) == m[..i] + [(k, v)] + m[i + 1..]
  {
    if m[0].0 == k {
      i := 0;
      assert m[..0] == [];
    } else {
      var j := PutPosition(m[1..], k, v);
      i := j + 1;
      assert Put(m, k, v) == [m[0]] + Put(m[1..], k, v);
      assert Keys(m[..i]) == {m[0].0} + Keys(m[1..][..j]) by { assert m[..i][1..] == m[1..][..j]; }
      assert m[..i] == [m[0]] + m[1..][..j];
      assert m[1..][j + 1..] == m[i + 1..];
    }
  }

  /** Assigning the pairs one after another, as a loop `for n, v in pairs: m[n] = v` does. */
  function PutAll(m: Entries, pairs: Entries): (r: Entries)
    decreases |pairs|
  {
    if pairs == [] then m else PutAll(Put(m, pairs[0].0, pairs[0].1), pairs[1..])
  }

  lemma {:induction false} KeysAppend(a: Entries, b: Entries)
    ensures Keys(a + b) == Keys(a) + Keys(b)
  {
    if a != [] {
      assert (a + b)[1..] == a[1..] + b;
      KeysAppend(a[1..], b);
    } else {
      assert a + b == b;
    }
  }

  lemma {:induction false} DistinctAppend(a: Entries, b: Entries)
    ensures DistinctKeys(a + b) <==> DistinctKeys(a) && DistinctKeys(b) && Keys(a) !! Keys(b)
  {
    if a == [] {
      assert a + b == b;
    } else {
      assert (a + b)[1..] == a[1..] + b;
      DistinctAppend(a[1..], b);
      KeysAppend(a[1..], b);
    }
  }

  /** One more assignment at the end of the loop. */
  lemma {:induction false} PutAllSnoc(m: Entries, pairs: Entries, k: string, v: Value)
    ensures PutAll(m, pairs + [(k, v)]) == Put(PutAll(m, pairs), k, v)
    decreases |pairs|
  {
    if pairs == [] {
      assert pairs + [(k, v)] == [(k, v)];
    } else {
      assert (pairs + [(k, v)])[1..] == pairs[1..] + [(k, v)];
      PutAllSnoc(Put(m, pairs[0].0, pairs[0].1), pairs[1..], k, v);
    }
  }

  /** Two runs of assignments one after the other are one run over both. */
  lemma {:induction false} PutAllAppend(m: Entries, a: Entries, b: Entries)
    ensures PutAll(m, a + b) == PutAll(PutAll(m, a), b)
    decreases |a|
  {
    if a == [] {
      assert a + b == b;
    } else {
      assert (a + b)[0] == a[0] && (a + b)[1..] == a[1..] + b;
      PutAllAppend(Put(m, a[0].0, a[0].1), a[1..], b);
    }
  }

  /** The keys after the loop are the old keys and the assigned names. */
  lemma {:induction false} PutAllKeys(m: Entries, pairs: Entries)
    ensures Keys(PutAll(m, pairs)) == Keys(m) + Keys(pairs)
    decreases |pairs|
  {
    if pairs != [] {
      PutAllKeys(Put(m, pairs[0].0, pairs[0].1), pairs[1..]);
    }
  }

  /** When no name repeats, the loop simply appends every pair, unchanged and in order. */
  lemma {:induction false} PutAllDistinct(m: Entries, pairs: Entries)
    requires DistinctKeys(m + pairs)
    ensures PutAll(m, pairs) == m + pairs
    decreases |pairs|
  {
    if pairs == [] {
      assert m + pairs == m;
    } else {
      DistinctAppend(m, pairs);
      assert pairs[0].0 in Keys(pairs);
      var m' := Put(m, pairs[0].0, pairs[0].1);
      assert m' == m + [pairs[0]];
      assert m' + pairs[1..] == m + pairs;
      PutAllDistinct(m', pairs[1..]);
    }
  }

  /** Position-wise lookup in a dict without repeated keys. */
  lemma {:induction false} LookupDistinct(m: Entries, i: nat)
    requires DistinctKeys(m) && i < |m|
    ensures Lookup(m, m[i].0) == Some(m[i].1)
  {
    if i > 0 {
      LookupDistinct(m[1..], i - 1);
      assert m[i].0 in Keys(m[1..]);
    }
  }

  /** Every value of `s` is itself a dict. */
  predicate AllDicts(s: Entries) {
    forall e :: e in s ==> e.1.Dict?
  }

  /** `s[a]` exists and is a dict. */
  predicate IsDictAt(s: Entries, a: string) {
    Lookup(s, a).Some? && Lookup(s, a).value.Dict?
  }

  /** `s[a][b]`, when `s[a]` is a dict holding `b`. */
  function Get2(s: Entries, a: string, b: string): Option<Value> {
    match Lookup(s, a)
    case Some(Dict(m)) => Lookup(m, b)
    case _ => None
  }

  /** `s[a][b]` exists and is a dict. */
  predicate IsDict2(s: Entries, a: string, b: string) {
    Get2(s, a, b).Some? && Get2(s, a, b).value.Dict?
  }

  /** `s[a][b][c]`, when the two outer levels are dicts. */
  function Get3(s: Entries, a: string, b: string, c: string): Option<Value> {
    match Get2(s, a, b)
    case Some(Dict(m)) => Lookup(m, c)
    case _ => None
  }
  /** `s[a][b][c]` read through the two dicts on its path. */
  lemma Get3Of(s: Entries, a: string, b: string, c: string, m: Entries, n: Entries)
    requires Lookup(s, a) == Some(Dict(m)) && Lookup(m, b) == Some(Dict(n))
    ensures Get3(s, a, b, c) == Lookup(n, c) && IsDict2(s, a, b)
  {
  }


  /**
   * `s[a][b] = v`. Python raises KeyError when `s[a]` is missing; every caller
   * in this model writes only below a dict, and the state is then left as is.
   */
  function Set2(s: Entries, a: string, b: string, v: Value): (r: Entries)
    ensures Keys(r) == Keys(s)
    ensures IsDictAt(s, a) ==> Get2(r, a, b) == Some(v)
    ensures forall a', b' :: a' != a || b' != b ==> Get2(r, a', b') == Get2(s, a', b')
    ensures forall a' :: a' != a ==> Lookup(r, a') == Lookup(s, a')
    ensures forall a' :: IsDictAt(r, a') == IsDictAt(s, a')
    ensures AllDicts(s) ==> AllDicts(r)
  {
    match Lookup(s, a)
    case Some(Dict(m)) => Put(s, a, Dict(Put(m, b, v)))
    case _ => s
  }

  /** A member of a dict without repeated keys is what lookup finds. */
  lemma LookupMember(m: Entries, e: (string, Value))
    requires DistinctKeys(m) && e in m
    ensures Lookup(m, e.0) == Some(e.1)
  {
    var i :| 0 <= i < |m| && m[i] == e;
    LookupDistinct(m, i);
  }

  /** The value of the last pair named `k`, if any: what the last assignment to `k` wrote. */
  function LastValue(pairs: Entries, k: string): (r: Option<Value>)
    ensures r.Some? <==> k in Keys(pairs)
  {
    if pairs == [] then None
    else
      var later := LastValue(pairs[1..], k);
      if later.Some? then later else if pairs[0].0 == k then Some(pairs[0].1) else None
  }

  /** Lookup after a run of assignments: the last assignment to a key wins. */
  lemma {:induction false} LookupPutAll(m: Entries, pairs: Entries, k: string)
    ensures k !in Keys(pairs) ==> Lookup(PutAll(m, pairs), k) == Lookup(m, k)
    ensures k in Keys(pairs) ==> Lookup(PutAll(m, pairs), k) == LastValue(pairs, k)
    ensures DistinctKeys(pairs) && k in Keys(pairs) ==> Lookup(PutAll(m, pairs), k) == Lookup(pairs, k)
    decreases |pairs|
  {
    if pairs != [] {
      LookupPutAll(Put(m, pairs[0].0, pairs[0].1), pairs[1..], k);
    }
  }

  /** Two assignments to one key: the second value is the one kept. */
  lemma LastAssignmentWins(m: Entries, k: string, v1: Value, v2: Value)
    ensures Lookup(PutAll(m, [(k, v1), (k, v2)]), k) == Some(v2)
  {
    LookupPutAll(m, [(k, v1), (k, v2)], k);
    assert [(k, v1), (k, v2)][1..] == [(k, v2)];
    assert [(k, v2)][1..] == [];
  }

  /**
   * The consecutive assignments `s[a][k] = v` for the pairs of `updates`, below
   * the existing dict `s[a]` (Python raises KeyError when `s[a]` is missing; every
   * caller in this model writes only below a dict, and the state is then left as is).
   */
  function Update(s: Entries, a: string, updates: Entries): (r: Entries)
    ensures Keys(r) == Keys(s)
    ensures forall a' :: a' != a ==> Lookup(r, a') == Lookup(s, a')
    ensures forall a' :: IsDictAt(r, a') == IsDictAt(s, a')
    ensures forall b :: b !in Keys(updates) ==> Get2(r, a, b) == Get2(s, a, b)
    ensures IsDictAt(s, a) && DistinctKeys(updates) ==>
      forall b :: b in Keys(updates) ==> Get2(r, a, b) == Lookup(updates, b)
    ensures AllDicts(s) ==> AllDicts(r)
  {
    match Lookup(s, a)
    case Some(Dict(m)) =>
      var m' := PutAll(m, updates);
      assert forall b :: Lookup(m', b) == if b in Keys(updates) && DistinctKeys(updates) then Lookup(updates, b)
                                         else if b !in Keys(updates) then Lookup(m, b) else Lookup(m', b) by {
        forall b { LookupPutAll(m, updates, b); }
      }
      Put(s, a, Dict(m'))
    case _ => s
  }

  /** Several groups of `s[a][k] = v` assignments, one device after another. */
  function UpdateAll(s: Entries, rows: seq<(string, Entries)>): (r: Entries)
    decreases |rows|
    ensures Keys(r) == Keys(s)
    ensures AllDicts(s) ==> AllDicts(r)
  {
    if rows == [] then s else UpdateAll(Update(s, rows[0].0, rows[0].1), rows[1..])
  }

  /**
   * The consecutive assignments `s[a][b][k] = v` for the pairs of `updates`,
   * below the existing dict `s[a][b]` (left as is when a level is missing, where
   * Python raises KeyError; no caller in this model writes there).
   */
  function Update3(s: Entries, a: string, b: string, updates: Entries): (r: Entries)
    ensures Keys(r) == Keys(s)
    ensures forall a' :: a' != a ==> Lookup(r, a') == Lookup(s, a')
    ensures forall a' :: IsDictAt(r, a') == IsDictAt(s, a')
    ensures forall a', b' :: IsDict2(r, a', b') == IsDict2(s, a', b')
    ensures forall b' :: b' != b ==> Get2(r, a, b') == Get2(s, a, b')
    ensures forall c :: c !in Keys(updates) ==> Get3(r, a, b, c) == Get3(s, a, b, c)
    ensures IsDict2(s, a, b) && DistinctKeys(updates) ==>
      forall c :: c in Keys(updates) ==> Get3(r, a, b, c) == Lookup(updates, c)
  {
    match Lookup(s, a)
    case Some(Dict(m)) =>
      Update3Below(s, a, m, b, updates);
      Put(s, a, Dict(Update(m, b, updates)))
    case _ => s
  }

  lemma Update3Below(s: Entries, a: string, m: Entries, b: string, updates: Entries)
    requires Lookup(s, a) == Some(Dict(m))
    ensures var r := Put(s, a, Dict(Update(m, b, updates)));
      && (forall a' :: IsDictAt(r, a') == IsDictAt(s, a'))
      && (forall a', b' :: IsDict2(r, a', b') == IsDict2(s, a', b'))
      && (forall b' :: b' != b ==> Get2(r, a, b') == Get2(s, a, b'))
      && (forall c :: c !in Keys(updates) ==> Get3(r, a, b, c) == Get3(s, a, b, c))
      && (IsDict2(s, a, b) && DistinctKeys(updates) ==>
            forall c :: c in Keys(updates) ==> Get3(r, a, b, c) == Lookup(updates, c))
  {
    var m' := Update(m, b, updates);
    var r := Put(s, a, Dict(m'));
    assert Lookup(r, a) == Some(Dict(m'));
    assert forall b' :: Get2(r, a, b') == Lookup(m', b');
    assert forall b' :: Get2(s, a, b') == Lookup(m, b');
    assert forall c :: Get3(r, a, b, c) == Get2(m', b, c);
    assert forall c :: Get3(s, a, b, c) == Get2(m, b, c);
    assert forall a', b' :: a' != a ==> IsDict2(r, a', b') == IsDict2(s, a', b');
    assert forall b' :: b' != b ==> IsDict2(r, a, b') == IsDict2(s, a, b');
    assert IsDictAt(m', b) == IsDictAt(m, b);
  }

  /** Several groups of `s[a][b][k] = v` assignments, one after another. */
  function UpdateAll3(s: Entries, rows: seq<(string, string, Entries)>): (r: Entries)
    decreases |rows|
    ensures Keys(r) == Keys(s)
  {
    if rows == [] then s else UpdateAll3(Update3(s, rows[0].0, rows[0].1, rows[0].2), rows[1..])
  }

  lemma {:induction false} UpdateAll3Append(s: Entries, a: seq<(string, string, Entries)>, b: seq<(string, string, Entries)>)
    ensures UpdateAll3(s, a + b) == UpdateAll3(UpdateAll3(s, a), b)
    decreases |a|
  {
    if a != [] {
      assert (a + b)[0] == a[0] && (a + b)[1..] == a[1..] + b;
      UpdateAll3Append(Update3(s, a[0].0, a[0].1, a[0].2), a[1..], b);
    } else {
      assert a + b == b;
    }
  }

  /** ASCII lower-casing of one character (`str.lower` restricted to A-Z). */
  function LowerChar(c: char): char {
    if 'A' <= c <= 'Z' then (c as int + 32) as char else c
  }

  /** `s.lower()`, ASCII letters only. */
  function Lower(s: string): (r: string)
    ensures |r| == |s|
    ensures forall i :: 0 <= i < |s| ==> r[i] == LowerChar(s[i])
  {
    if s == [] then [] else [LowerChar(s[0])] + Lower(s[1..])
  }

  predicate IsPrefix(p: string, s: string) {
    |p| <= |s| && s[..|p|] == p
  }

  /** Python's `sub in s` on strings. */
  predicate Contains(s: string, sub: string)
    decreases |s|
  {
    IsPrefix(sub, s) || (|s| > 0 && Contains(s[1..], sub))
  }

  /** Any string ends with (so contains) its suffix. */
  lemma {:induction false} ContainsSuffix(p: string, sub: string)
    ensures Contains(p + sub, sub)
    decreases |p|
  {
    if p == [] {
      assert p + sub == sub;
      assert IsPrefix(sub, sub);
    } else {
      assert (p + sub)[1..] == p[1..] + sub;
      ContainsSuffix(p[1..], sub);
    }
  }
}

/** The Python numeric built-ins the gateways apply to their readings. */
module Builtins {
  import opened Json

  /** The int value of an int or a bool. */
  function IntOf(v: Value): int
    requires v.Int? || v.Bool?
  {
    if v.Int? then v.i else if v.b then 1 else 0
  }

  /** Python's `a + b` on two numbers: an int when neither is a float, a float otherwise. */
  function Add(a: Value, b: Value): (r: Value)
    requires IsNum(a) && IsNum(b)
    ensures IsNum(r) && Num(r) == Num(a) + Num(b)
    ensures r.Float? <==> a.Float? || b.Float?
  {
    if a.Float? || b.Float? then Float(Num(a) + Num(b)) else Int(IntOf(a) + IntOf(b))
  }

  /**
   * `max(lo, min(hi, x))` for a float `x`. Python's `min` and `max` keep their
   * first argument on ties, so a clamped result is the int bound itself.
   */
  function Clamp(lo: int, hi: int, x: real): (v: Value)
    requires lo <= hi
    ensures IsNum(v) && lo as real <= Num(v) <= hi as real
    ensures lo as real < x < hi as real ==> v == Float(x)
    ensures x <= lo as real ==> v == Int(lo)
    ensures x >= hi as real ==> v == Int(hi)
  {
    var m := if x < hi as real then Float(x) else Int(hi);
    if Num(m) > lo as real then m else Int(lo)
  }

  /** `int(x)` for a float: truncation toward zero. */
  function Trunc(x: real): (n: int)
    ensures x >= 0.0 ==> n as real <= x < n as real + 1.0
    ensures x < 0.0 ==> n as real - 1.0 < x <= n as real
  {
    if x >= 0.0 then x.Floor else -((-x).Floor)
  }
}
