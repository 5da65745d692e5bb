/** Counting dictionaries as the statistics code builds them: a Python dict
    (or defaultdict) kept as an association list in insertion order, with
    Python's own key equality, and the "five largest" cut of such a dict. */
module Tally {
  import opened PyJson

  // ---------------------------------------------------------------- keys

  /** The number a key stands for when Python compares it with another key:
      True is 1, False is 0, ints and floats by value. */
  function NumKey(j: Json): Option<real> {
    match j
    case JBool(b) => Some(if b then 1.0 else 0.0)
    case JInt(i) => Some(i as real)
    case JFloat(r) => Some(r)
    case _ => None
  }

  /** Dict key equality: numbers of any kind by value, anything else by structure. */
  predicate SameKey(a: Json, b: Json) {
    if NumKey(a).Some? || NumKey(b).Some? then NumKey(a) == NumKey(b) else a == b
  }

  lemma SameKeyEquivalence(a: Json, b: Json, c: Json)
    ensures SameKey(a, a)
    ensures SameKey(a, b) ==> SameKey(b, a)
    ensures SameKey(a, b) && SameKey(b, c) ==> SameKey(a, c)
  {
  }

  // ---------------------------------------------------------------- counters

  /** A dict from keys to numbers, entries in insertion order. */
  type Counter = seq<(Json, real)>

  predicate HasKey(c: Counter, k: Json) {
    exists i :: 0 <= i < |c| && SameKey(c[i].0, k)
  }

  /** No key occurs twice, as in any Python dict. */
  predicate Distinct(c: Counter) {
    forall i, j :: 0 <= i < j < |c| ==> !SameKey(c[i].0, c[j].0)
  }

  /** c.get(k, 0) */
  function Value(c: Counter, k: Json): real {
    if c == [] then 0.0 else if SameKey(c[0].0, k) then c[0].1 else Value(c[1..], k)
  }

  /** Keys Python treats as equal look up the same value. */
  lemma {:induction false} ValueSameKey(c: Counter, k: Json, k': Json)
    requires SameKey(k, k')
    ensures Value(c, k) == Value(c, k')
    decreases |c|
  {
    if c != [] {
      SameKeyEquivalence(c[0].0, k, k');
      SameKeyEquivalence(c[0].0, k', k);
      SameKeyEquivalence(k, k', k);
      ValueSameKey(c[1..], k, k');
    }
  }

  /** In a dict, looking up an entry's key finds that entry's value. */
  lemma {:induction false} ValueOfEntry(c: Counter, i: int)
    requires Distinct(c) && 0 <= i < |c|
    ensures Value(c, c[i].0) == c[i].1
    decreases i
  {
    SameKeyEquivalence(c[i].0, c[i].0, c[i].0);
    if i > 0 {
      assert !SameKey(c[0].0, c[i].0);
      assert c[1..][i - 1] == c[i];
      ValueOfEntry(c[1..], i - 1);
    }
  }

  /** The sum of all values. */
  function Total(c: Counter): real {
    if c == [] then 0.0 else c[0].1 + Total(c[1..])
  }

  /** A key occurs in a non-empty counter iff it is the first key or occurs in the rest. */
  lemma HasKeyTail(c: Counter, k: Json)
    requires c != []
    ensures HasKey(c, k) <==> SameKey(c[0].0, k) || HasKey(c[1..], k)
  {
    if HasKey(c, k) {
      var i :| 0 <= i < |c| && SameKey(c[i].0, k);
      if i > 0 {
        assert c[1..][i - 1] == c[i];
      }
    }
    if HasKey(c[1..], k) {
      var i :| 0 <= i < |c[1..]| && SameKey(c[1..][i].0, k);
      assert c[i + 1] == c[1..][i];
    }
  }

  /** d[k] += n on a defaultdict, or d[k] = d.get(k, 0) + n on a dict: an
      existing key keeps its place (and its first spelling) and grows by n;
      a new key is appended with value n. */
  function Bump(c: Counter, k: Json, n: real): (r: Counter)
    ensures |r| == if HasKey(c, k) then |c| else |c| + 1
    ensures forall i :: 0 <= i < |c| ==> r[i].0 == c[i].0
    ensures !HasKey(c, k) ==> r[|c|] == (k, n)
  {
    if c == [] then
      [(k, n)]
    else
      HasKeyTail(c, k);
      if SameKey(c[0].0, k) then [(c[0].0, c[0].1 + n)] + c[1..]
      else [c[0]] + Bump(c[1..], k, n)
  }

  /** After a bump, k's value has grown by n and every other key's is unchanged. */
  lemma {:induction false} BumpValue(c: Counter, k: Json, n: real)
    ensures Value(Bump(c, k, n), k) == Value(c, k) + n
    ensures forall k' :: !SameKey(k', k) ==> Value(Bump(c, k, n), k') == Value(c, k')
    decreases |c|
  {
    if c != [] {
      var r := Bump(c, k, n);
      if SameKey(c[0].0, k) {
        assert r[1..] == c[1..];
        forall k' | !SameKey(k', k)
          ensures Value(r, k') == Value(c, k')
        {
          SameKeyEquivalence(c[0].0, k, k');
          SameKeyEquivalence(k, c[0].0, k');
          SameKeyEquivalence(k', c[0].0, k);
        }
      } else {
        BumpValue(c[1..], k, n);
        assert r[1..] == Bump(c[1..], k, n);
      }
    }
  }

  /** A bump never makes a key occur twice. */
  lemma BumpDistinct(c: Counter, k: Json, n: real)
    requires Distinct(c)
    ensures Distinct(Bump(c, k, n))
  {
    var r := Bump(c, k, n);
    if !HasKey(c, k) {
      forall i | 0 <= i < |c|
        ensures !SameKey(r[i].0, r[|c|].0)
      {
        assert r[i].0 == c[i].0;
      }
    }
  }

  /** A defaultdict read of d[k]: a missing key is inserted with 0. */
  function Touch(c: Counter, k: Json): Counter {
    Bump(c, k, 0.0)
  }

  /** Reading a defaultdict makes the key present and changes no value. */
  lemma TouchKeepsValues(c: Counter, k: Json)
    ensures HasKey(Touch(c, k), k)
    ensures forall k' :: Value(Touch(c, k), k') == Value(c, k')
  {
    BumpValue(c, k, 0.0);
    var r := Touch(c, k);
    if !HasKey(c, k) {
      SameKeyEquivalence(k, k, k);
      assert SameKey(r[|c|].0, k);
    }
    forall k' | SameKey(k', k)
      ensures Value(r, k') == Value(c, k')
    {
      ValueSameKey(r, k, k');
      ValueSameKey(c, k, k');
      SameKeyEquivalence(k', k, k);
    }
  }

  /** The sum of a counter's values grows by exactly what was added. */
  lemma {:induction false} BumpTotal(c: Counter, k: Json, n: real)
    ensures Total(Bump(c, k, n)) == Total(c) + n
    decreases |c|
  {
    if c == [] {
    } else if SameKey(c[0].0, k) {
      assert Bump(c, k, n)[1..] == c[1..];
    } else {
      BumpTotal(c[1..], k, n);
      assert Bump(c, k, n)[1..] == Bump(c[1..], k, n);
    }
  }

  // ---------------------------------------------------------------- five largest

  predicate SortedDesc(s: Counter) {
    forall i, j :: 0 <= i < j < |s| ==> s[i].1 >= s[j].1
  }

  /** Places x after every entry whose value is at least x's. */
  function Insert(s: Counter, x: (Json, real)): (r: Counter)
    ensures |r| == |s| + 1
    ensures multiset(r) == multiset(s) + multiset{x}
  {
    if s == [] then [x]
    else if s[0].1 >= x.1 then
      assert s == [s[0]] + s[1..];
      [s[0]] + Insert(s[1..], x)
    else
      [x] + s
  }

  /** The head of a descending list bounds every entry of a list made of
      its tail and a no larger entry. */
  lemma HeadBounds(s: Counter, x: (Json, real), rest: Counter)
    requires SortedDesc(s) && s != [] && s[0].1 >= x.1
    requires multiset(rest) == multiset(s[1..]) + multiset{x}
    ensures forall j :: 0 <= j < |rest| ==> s[0].1 >= rest[j].1
  {
    forall j | 0 <= j < |rest|
      ensures s[0].1 >= rest[j].1
    {
      assert rest[j] in multiset(rest);
      if rest[j] != x {
        assert rest[j] in multiset(s[1..]);
        var m :| 0 <= m < |s[1..]| && s[1..][m] == rest[j];
        assert s[m + 1] == rest[j];
      }
    }
  }

  /** Inserting into a descending list keeps it descending. */
  lemma {:induction false} InsertSorted(s: Counter, x: (Json, real))
    requires SortedDesc(s)
    ensures SortedDesc(Insert(s, x))
    decreases |s|
  {
    if s != [] && s[0].1 >= x.1 {
      var rest := Insert(s[1..], x);
      InsertSorted(s[1..], x);
      HeadBounds(s, x, rest);
      assert Insert(s, x) == [s[0]] + rest;
    }
  }

  /** sorted(d.items(), key=value, reverse=True): descending by value, and
      stable, entries of equal value keeping their dict order. */
  function SortDesc(c: Counter): (r: Counter)
    ensures |r| == |c|
    ensures multiset(r) == multiset(c)
    ensures SortedDesc(r)
  {
    if c == [] then []
    else
      var p := SortDesc(c[..|c| - 1]);
      assert c == c[..|c| - 1] + [c[|c| - 1]];
      InsertSorted(p, c[|c| - 1]);
      Insert(p, c[|c| - 1])
  }

  /** The entries of value v, in the order they occur. */
  function WithValue(c: Counter, v: real): Counter {
    if c == [] then [] else (if c[0].1 == v then [c[0]] else []) + WithValue(c[1..], v)
  }

  lemma {:induction false} WithValueAppend(a: Counter, b: Counter, v: real)
    ensures WithValue(a + b, v) == WithValue(a, v) + WithValue(b, v)
    decreases |a|
  {
    if a == [] {
      assert a + b == b;
    } else {
      assert a == [a[0]] + a[1..];
      assert a + b == [a[0]] + (a[1..] + b);
      WithValueAppend(a[1..], b, v);
      ConsKeepsTail(a[0], a[1..], a[1..] + b, WithValue(b, v), v);
    }
  }

  /** A descending list whose head is below v has no entry of value v. */
  lemma {:induction false} WithValueBelow(s: Counter, v: real)
    requires SortedDesc(s) && (s != [] ==> s[0].1 < v)
    ensures WithValue(s, v) == []
    decreases |s|
  {
    if s != [] {
      WithValueBelow(s[1..], v);
    }
  }

  lemma WithValueCons(a: (Json, real), t: Counter, v: real)
    ensures WithValue([a] + t, v) == (if a.1 == v then [a] else []) + WithValue(t, v)
  {
    assert ([a] + t)[1..] == t;
  }

  /** Insert places x after every entry of x's value. */
  lemma {:induction false} InsertWithValue(s: Counter, x: (Json, real), v: real)
    requires SortedDesc(s)
    ensures WithValue(Insert(s, x), v) == WithValue(s, v) + (if x.1 == v then [x] else [])
    decreases |s|
  {
    if s == [] {
      WithValueCons(x, [], v);
    } else if s[0].1 >= x.1 {
      SortedTail(s);
      InsertWithValue(s[1..], x, v);
      InsertBehind(s, x, v);
    } else {
      InsertInFront(s, x, v);
    }
  }

  lemma SortedTail(s: Counter)
    requires SortedDesc(s) && s != []
    ensures SortedDesc(s[1..])
  {
  }

  lemma InsertHead(s: Counter, x: (Json, real))
    requires s != [] && s[0].1 >= x.1
    ensures Insert(s, x) == [s[0]] + Insert(s[1..], x)
  {
  }

  /** An entry no larger than the head goes behind it. */
  lemma InsertBehind(s: Counter, x: (Json, real), v: real)
    requires s != [] && s[0].1 >= x.1
    requires WithValue(Insert(s[1..], x), v) == WithValue(s[1..], v) + (if x.1 == v then [x] else [])
    ensures WithValue(Insert(s, x), v) == WithValue(s, v) + (if x.1 == v then [x] else [])
  {
    InsertHead(s, x);
    assert s == [s[0]] + s[1..];
    ConsKeepsTail(s[0], s[1..], Insert(s[1..], x), if x.1 == v then [x] else [], v);
  }

  /** Putting the same entry in front of two lists keeps what one has
      beyond the other among the entries of value v. */
  lemma ConsKeepsTail(a: (Json, real), t: Counter, rest: Counter, tail: Counter, v: real)
    requires WithValue(rest, v) == WithValue(t, v) + tail
    ensures WithValue([a] + rest, v) == WithValue([a] + t, v) + tail
  {
    WithValueCons(a, rest, v);
    WithValueCons(a, t, v);
  }

  /** An entry larger than the head goes in front of every entry. */
  lemma InsertInFront(s: Counter, x: (Json, real), v: real)
    requires SortedDesc(s) && s != [] && s[0].1 < x.1
    ensures WithValue(Insert(s, x), v) == WithValue(s, v) + (if x.1 == v then [x] else [])
  {
    if x.1 == v {
      WithValueBelow(s, v);
    }
    assert Insert(s, x) == [x] + s;
    WithValueCons(x, s, v);
  }

  /** The sort is stable: the entries of any one value keep their dict order. */
  lemma {:induction false} SortStable(c: Counter, v: real)
    ensures WithValue(SortDesc(c), v) == WithValue(c, v)
    decreases |c|
  {
    if c != [] {
      var pre := c[..|c| - 1];
      var x := c[|c| - 1];
      SortStable(pre, v);
      SortLast(c);
      InsertWithValue(SortDesc(pre), x, v);
      WithValueLast(c, v);
    }
  }

  /** SortDesc inserts the last entry into the sorted rest. */
  lemma SortLast(c: Counter)
    requires c != []
    ensures SortDesc(c) == Insert(SortDesc(c[..|c| - 1]), c[|c| - 1])
  {
  }

  lemma WithValueLast(c: Counter, v: real)
    requires c != []
    ensures WithValue(c, v) == WithValue(c[..|c| - 1], v) + (if c[|c| - 1].1 == v then [c[|c| - 1]] else [])
  {
    var x := c[|c| - 1];
    assert c == c[..|c| - 1] + [x];
    WithValueAppend(c[..|c| - 1], [x], v);
    WithValueCons(x, [], v);
  }

  /** sorted(d.items(), key=value, reverse=True)[:n] */
  function Top(c: Counter, n: nat): Counter {
    var s := SortDesc(c);
    s[..if n < |s| then n else |s|]
  }

  /** In a list sorted by non-increasing value, no entry after the first m
      has a larger value than any of the first m. */
  lemma PrefixDominates(s: Counter, m: nat)
    requires SortedDesc(s) && m <= |s|
    ensures forall e, t :: e in s && e !in s[..m] && t in s[..m] ==> e.1 <= t.1
  {
    forall e, t | e in s && e !in s[..m] && t in s[..m]
      ensures e.1 <= t.1
    {
      forall k | 0 <= k < m
        ensures s[k] != e
      {
        assert s[..m][k] == s[k];
      }
      var j :| 0 <= j < |s| && s[j] == e;
      var i :| 0 <= i < m && s[..m][i] == t;
      assert s[..m][i] == s[i];
    }
  }

  /** The cut keeps min(n, |c|) entries, all from c, in non-increasing order,
      and no entry left out has a larger value than any entry kept. */
  lemma TopLargest(c: Counter, n: nat)
    ensures |Top(c, n)| == if n < |c| then n else |c|
    ensures multiset(Top(c, n)) <= multiset(c)
    ensures SortedDesc(Top(c, n))
    ensures forall e, t :: e in c && e !in Top(c, n) && t in Top(c, n) ==> e.1 <= t.1
  {
    var s := SortDesc(c);
    var m := if n < |s| then n else |s|;
    PrefixSubMultiset(s, m);
    PrefixDominates(s, m);
    SameMembers(c, s);
  }

  /** A prefix holds no entry more often than the whole list. */
  lemma PrefixSubMultiset(s: Counter, m: nat)
    requires m <= |s|
    ensures multiset(s[..m]) <= multiset(s)
  {
    assert s == s[..m] + s[m..];
  }

  /** Lists with the same entries, counted, have the same members. */
  lemma SameMembers(c: Counter, s: Counter)
    requires multiset(c) == multiset(s)
    ensures forall e :: e in c ==> e in s
  {
    forall e | e in c
      ensures e in s
    {
      assert e in multiset(c);
    }
  }
}
