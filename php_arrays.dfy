/** PHP values as the converter sees them once JSON has been decoded into
    associative arrays, and the few array operations the converter uses:
    reading `$a[k]`, `isset($a[k])`, writing `$a[k] = v`, `unset($a[k])`,
    `in_array` and `foreach`. */
module PhpArrays {

  /** A decoded value. A PHP array whose keys are 0, 1, ... in order is a
      `List`; any other array is an `Obj` whose fields keep insertion order.
      Numbers are never computed with, so they are opaque. */
  datatype Value =
    | Null
    | Bool(b: bool)
    | Num(n: real)
    | Str(s: string)
    | List(items: seq<Value>)
    | Obj(fields: seq<(string, Value)>)

  /** The entries of a PHP array with string keys, in insertion order. */
  type Entries = seq<(string, Value)>

  /** The empty PHP array `[]` as it appears in outputs. */
  const Empty: Value := Obj([])

  predicate HasKey(m: Entries, k: string) {
    exists i :: 0 <= i < |m| && m[i].0 == k
  }

  /** PHP arrays never hold one key twice. */
  predicate DistinctKeys(m: Entries) {
    forall i, j :: 0 <= i < j < |m| ==> m[i].0 != m[j].0
  }

  /** Position of key `k`, or -1 when it is absent. */
  function Find(m: Entries, k: string): (i: int)
    ensures -1 <= i < |m|
    ensures 0 <= i ==> m[i].0 == k && forall j :: 0 <= j < i ==> m[j].0 != k
    ensures i < 0 <==> !HasKey(m, k)
  {
    if m == [] then -1
    else if m[0].0 == k then 0
    else
      var r := Find(m[1..], k);
      if r < 0 then -1 else r + 1
  }

  lemma FindAt(m: Entries, k: string, i: int)
    requires 0 <= i < |m| && m[i].0 == k
    requires forall j :: 0 <= j < i ==> m[j].0 != k
    ensures Find(m, k) == i
  {
    assert HasKey(m, k);
  }

  /** `$m[k]`: the value stored under `k`, or null when there is none. */
  function Get(m: Entries, k: string): Value {
    var i := Find(m, k);
    if i < 0 then Null else m[i].1
  }

  /** `isset($m[k])`: the key is present and its value is not null. */
  predicate IsSet(m: Entries, k: string) {
    Get(m, k) != Null
  }

  lemma GetAt(m: Entries, i: int)
    requires DistinctKeys(m) && 0 <= i < |m|
    ensures Get(m, m[i].0) == m[i].1
  {
    FindAt(m, m[i].0, i);
  }

  lemma GetSnoc(m: Entries, x: (string, Value), k: string)
    ensures Find(m + [x], k) == if HasKey(m, k) then Find(m, k) else if x.0 == k then |m| else -1
    ensures Get(m + [x], k) == if HasKey(m, k) then Get(m, k) else if x.0 == k then x.1 else Null
  {
    var s := m + [x];
    if HasKey(m, k) {
      FindAt(s, k, Find(m, k));
    } else if x.0 == k {
      FindAt(s, k, |m|);
    } else {
      assert !HasKey(s, k) by {
        forall i | 0 <= i < |s| ensures s[i].0 != k {
          if i < |m| { assert s[i] == m[i]; }
        }
      }
    }
  }

  /** `$m[k] = v`: overwrite in place when `k` is present, append otherwise. */
  function Put(m: Entries, k: string, v: Value): (r: Entries)
    ensures !HasKey(m, k) ==> r == m + [(k, v)]
    ensures HasKey(m, k) ==> |r| == |m| && forall i :: 0 <= i < |m| ==> r[i].0 == m[i].0
    ensures HasKey(m, k) && DistinctKeys(m) ==> forall i :: 0 <= i < |m| && m[i].0 != k ==> r[i] == m[i]
  {
    var i := Find(m, k);
    if i < 0 then m + [(k, v)] else m[i := (k, v)]
  }

  /** What reading back after `$m[k] = v` sees. */
  lemma PutSpec(m: Entries, k: string, v: Value)
    ensures Get(Put(m, k, v), k) == v
    ensures forall j :: j != k ==> Get(Put(m, k, v), j) == Get(m, j)
    ensures forall j :: HasKey(Put(m, k, v), j) <==> HasKey(m, j) || j == k
    ensures DistinctKeys(m) ==> DistinctKeys(Put(m, k, v))
  {
    var r := Put(m, k, v);
    if HasKey(m, k) {
      var i := Find(m, k);
      FindAt(r, k, i);
      forall j | j != k ensures Get(r, j) == Get(m, j) {
        if HasKey(m, j) {
          FindAt(r, j, Find(m, j));
        } else {
          assert !HasKey(r, j) by {
            forall p | 0 <= p < |r| ensures r[p].0 != j { assert r[p].0 == m[p].0; }
          }
        }
      }
      forall j ensures HasKey(r, j) <==> HasKey(m, j) || j == k {
        if HasKey(m, j) { assert r[Find(m, j)].0 == j; }
        if HasKey(r, j) { assert m[Find(r, j)].0 == j; }
      }
    } else {
      GetSnoc(m, (k, v), k);
      forall j | j != k ensures Get(r, j) == Get(m, j) {
        GetSnoc(m, (k, v), j);
      }
      forall j ensures HasKey(r, j) <==> HasKey(m, j) || j == k {
        GetSnoc(m, (k, v), j);
      }
    }
  }

  /** Overwriting a key that is present moves no key: every key is found
      where it was. */
  lemma PutKeepsFind(m: Entries, k: string, v: Value, j: string)
    requires HasKey(m, k)
    ensures Find(Put(m, k, v), j) == Find(m, j)
  {
    var r := Put(m, k, v);
    if HasKey(m, j) {
      FindAt(r, j, Find(m, j));
    } else {
      assert !HasKey(r, j) by {
        forall p | 0 <= p < |r| ensures r[p].0 != j { assert r[p].0 == m[p].0; }
      }
    }
  }

  /** The entries of `r` from position `n` on carry keys of `e`, in the order
      `e` lists those keys. */
  predicate TailInOrder(r: Entries, n: nat, e: Entries) {
    && (forall i :: n <= i < |r| ==> HasKey(e, r[i].0))
    && (forall i, j :: n <= i < j < |r| ==> Find(e, r[i].0) < Find(e, r[j].0))
  }

  /** The order of a tail depends on its keys only. */
  lemma TailInOrderSameKeys(q: Entries, r: Entries, n: nat, e: Entries)
    requires |r| == |q| && forall i :: 0 <= i < |q| ==> r[i].0 == q[i].0
    requires TailInOrder(q, n, e)
    ensures TailInOrder(r, n, e)
  {
    forall i, j | n <= i < j < |r| ensures Find(e, r[i].0) < Find(e, r[j].0) {
      assert r[i].0 == q[i].0 && r[j].0 == q[j].0;
    }
  }

  /** A tail in the order of `e` is also in the order of `e + [x]`, and every
      one of its keys comes before `x.0` there. */
  lemma TailInOrderSnoc(q: Entries, n: nat, e: Entries, x: (string, Value))
    requires !HasKey(e, x.0) && TailInOrder(q, n, e)
    ensures TailInOrder(q, n, e + [x])
    ensures forall i :: n <= i < |q| ==> Find(e + [x], q[i].0) < |e|
    ensures Find(e + [x], x.0) == |e|
  {
    forall i | n <= i < |q| ensures HasKey(e + [x], q[i].0) && Find(e + [x], q[i].0) == Find(e, q[i].0) < |e| {
      GetSnoc(e, x, q[i].0);
    }
    GetSnoc(e, x, x.0);
  }

  /** Writing the next entry `x` of a PHP array `e + [x]` keeps the tail in
      the order of `e + [x]`, whether the write overwrites or appends. */
  lemma TailInOrderPut(q: Entries, n: nat, e: Entries, x: (string, Value))
    requires !HasKey(e, x.0) && TailInOrder(q, n, e)
    ensures TailInOrder(Put(q, x.0, x.1), n, e + [x])
  {
    var e2 := e + [x];
    TailInOrderSnoc(q, n, e, x);
    var r := Put(q, x.0, x.1);
    if HasKey(q, x.0) {
      TailInOrderSameKeys(q, r, n, e2);
    } else {
      assert r == q + [x];
      forall i | n <= i < |r| ensures HasKey(e2, r[i].0) {
        if i < |q| { assert r[i] == q[i]; }
      }
      forall i, j | n <= i < j < |r| ensures Find(e2, r[i].0) < Find(e2, r[j].0) {
        assert r[i] == q[i];
        if j < |q| { assert r[j] == q[j]; }
      }
    }
  }

  /** `unset($m[k])`. */
  function Remove(m: Entries, k: string): (r: Entries)
    ensures !HasKey(m, k) ==> r == m
  {
    var i := Find(m, k);
    if i < 0 then m else m[..i] + m[i + 1..]
  }

  /** Unsetting the first occurrence of a key removes exactly that entry. */
  lemma RemoveFirst(a: Entries, x: (string, Value), b: Entries)
    requires !HasKey(a, x.0)
    ensures Remove(a + [x] + b, x.0) == a + b
  {
    var m := a + [x] + b;
    forall j | 0 <= j < |a| ensures m[j].0 != x.0 {
      assert m[j] == a[j];
    }
    FindAt(m, x.0, |a|);
    assert m[..|a|] == a;
    assert m[|a| + 1..] == b;
  }

  /** `in_array($k, $list)` with the list's elements compared strictly. */
  predicate InArray(k: string, list: seq<Value>) {
    Str(k) in list
  }

  const Digits := "0123456789"

  /** The decimal spelling of a natural number, as PHP prints an integer key. */
  function Decimal(n: nat): (r: string)
    ensures |r| > 0 && forall c :: c in r ==> c in Digits
  {
    if n < 10 then [Digits[n]] else Decimal(n / 10) + [Digits[n % 10]]
  }

  /** The key/value pairs `foreach ($v as $k => $x)` visits; a scalar yields none. */
  function EntriesOf(v: Value): (r: Entries)
    ensures v.Obj? ==> r == v.fields
    ensures v.List? ==> |r| == |v.items| && forall i :: 0 <= i < |r| ==> r[i] == (Decimal(i), v.items[i])
    ensures !(v.Obj? || v.List?) ==> r == []
  {
    match v
    case Obj(fields) => fields
    case List(items) => seq(|items|, i requires 0 <= i < |items| => (Decimal(i), items[i]))
    case _ => []
  }

  /** The values `foreach ($v as $x)` visits, in order. */
  function ItemsOf(v: Value): (r: seq<Value>)
    ensures |r| == |EntriesOf(v)| && forall i :: 0 <= i < |r| ==> r[i] == EntriesOf(v)[i].1
  {
    match v
    case List(items) => items
    case Obj(fields) => seq(|fields|, i requires 0 <= i < |fields| => fields[i].1)
    case _ => []
  }

  /** `$v[k]` for a value that may or may not be an array; null when absent. */
  function Elem(v: Value, k: string): Value {
    Get(EntriesOf(v), k)
  }

  /** `is_array($v)`. */
  predicate IsArray(v: Value) {
    v.List? || v.Obj?
  }

  /** The entries of `s` whose key is listed in `names` (`keep`) or not
      listed (`!keep`), in their original order. */
  function FilterKeys(s: Entries, names: seq<Value>, keep: bool): (r: Entries)
    ensures forall x {:trigger x in r} :: x in r <==> x in s && InArray(x.0, names) == keep
    decreases |s|
  {
    if s == [] then []
    else
      var last := s[|s| - 1];
      var prefix := FilterKeys(s[..|s| - 1], names, keep);
      assert forall x :: x in s <==> x in s[..|s| - 1] || x == last by {
        assert s == s[..|s| - 1] + [last];
      }
      if InArray(last.0, names) == keep then prefix + [last] else prefix
  }

  /** Filtering a PHP array gives a PHP array: no key twice. */
  lemma {:induction false} FilterKeysDistinct(s: Entries, names: seq<Value>, keep: bool)
    requires DistinctKeys(s)
    ensures DistinctKeys(FilterKeys(s, names, keep))
    decreases |s|
  {
    if s != [] {
      var init := s[..|s| - 1];
      var prefix := FilterKeys(init, names, keep);
      FilterKeysDistinct(init, names, keep);
      LacksLaterKey(s, |s| - 1, prefix);
    }
  }

  /** Filtering one more entry appends it when it passes the test. */
  lemma FilterKeysSnoc(s: Entries, names: seq<Value>, keep: bool, i: int)
    requires 0 <= i < |s|
    ensures FilterKeys(s[..i + 1], names, keep) ==
      if InArray(s[i].0, names) == keep then FilterKeys(s[..i], names, keep) + [s[i]] else FilterKeys(s[..i], names, keep)
  {
    assert s[..i + 1][..i] == s[..i];
  }

  /** An array built from entries before position `i` of a PHP array does
      not yet hold the key at position `i`. */
  lemma LacksLaterKey(s: Entries, i: int, r: Entries)
    requires DistinctKeys(s) && 0 <= i < |s|
    requires forall x :: x in r ==> x in s[..i]
    ensures !HasKey(r, s[i].0)
  {
    forall p | 0 <= p < |r| ensures r[p].0 != s[i].0 {
      assert r[p] in s[..i];
      var q :| 0 <= q < i && s[..i][q] == r[p];
      assert s[q] == r[p];
    }
  }

  /** Filtering keeps the relative order of the entries it keeps. */
  lemma {:induction false} FilterKeysOrder(s: Entries, names: seq<Value>, keep: bool, i: int, j: int)
    requires DistinctKeys(s) && 0 <= i < j < |s|
    requires InArray(s[i].0, names) == keep && InArray(s[j].0, names) == keep
    ensures 0 <= Find(FilterKeys(s, names, keep), s[i].0) < Find(FilterKeys(s, names, keep), s[j].0)
    decreases |s|
  {
    var init := s[..|s| - 1];
    var prefix := FilterKeys(init, names, keep);
    assert s == init + [s[|s| - 1]];
    assert s[i] in FilterKeys(s, names, keep);
    if j < |s| - 1 {
      FilterKeysOrder(init, names, keep, i, j);
      assert init[i] == s[i] && init[j] == s[j];
      assert HasKey(prefix, s[i].0) && HasKey(prefix, s[j].0);
      GetSnoc(prefix, s[|s| - 1], s[i].0);
      GetSnoc(prefix, s[|s| - 1], s[j].0);
    } else {
      assert s[i] in prefix by { assert s[i] == init[i]; }
      assert HasKey(prefix, s[i].0);
      LacksLaterKey(s, |s| - 1, prefix);
      GetSnoc(prefix, s[|s| - 1], s[i].0);
      GetSnoc(prefix, s[|s| - 1], s[j].0);
    }
  }

  /** A kept key reads the same in the filtered array as in the original. */
  lemma FilterKeysSpec(s: Entries, names: seq<Value>, keep: bool)
    requires DistinctKeys(s)
    ensures forall k :: HasKey(FilterKeys(s, names, keep), k) <==> HasKey(s, k) && InArray(k, names) == keep
    ensures forall k :: HasKey(FilterKeys(s, names, keep), k) ==> Get(FilterKeys(s, names, keep), k) == Get(s, k)
    ensures DistinctKeys(FilterKeys(s, names, keep))
  {
    var r := FilterKeys(s, names, keep);
    FilterKeysDistinct(s, names, keep);
    forall k ensures HasKey(r, k) <==> HasKey(s, k) && InArray(k, names) == keep {
      if HasKey(r, k) {
        var p :| 0 <= p < |r| && r[p].0 == k;
        assert r[p] in r;
      }
      if HasKey(s, k) && InArray(k, names) == keep {
        var q :| 0 <= q < |s| && s[q].0 == k;
        assert s[q] in r;
      }
    }
    forall k | HasKey(r, k) ensures Get(r, k) == Get(s, k) {
      var p := Find(r, k);
      assert r[p] in r;
      var q :| 0 <= q < |s| && s[q] == r[p];
      GetAt(r, p);
      GetAt(s, q);
    }
  }

  /** `foreach ($e as $k => $v) { $p[$k] = $v; }`: later entries overwrite. */
  function Overlay(p: Entries, e: Entries): Entries
    decreases |e|
  {
    if e == [] then p
    else
      var last := e[|e| - 1];
      Put(Overlay(p, e[..|e| - 1]), last.0, last.1)
  }

  /** Copying an array key by key into an empty one reproduces it. */
  lemma {:induction false} OverlayOntoEmpty(e: Entries)
    requires DistinctKeys(e)
    ensures Overlay([], e) == e
    decreases |e|
  {
    if e != [] {
      var init := e[..|e| - 1];
      var last := e[|e| - 1];
      OverlayOntoEmpty(init);
      LacksLaterKey(e, |e| - 1, init);
      assert Overlay([], e) == Put(init, last.0, last.1);
      assert e == init + [last];
    }
  }

  /** Overlaying keeps the keys of `p` where they stand, overwrites the ones
      `e` names, and appends the new ones after them. */
  lemma {:induction false} OverlaySpec(p: Entries, e: Entries)
    requires DistinctKeys(e)
    ensures forall k :: HasKey(Overlay(p, e), k) <==> HasKey(p, k) || HasKey(e, k)
    ensures forall k :: Get(Overlay(p, e), k) == if HasKey(e, k) then Get(e, k) else Get(p, k)
    ensures |p| <= |Overlay(p, e)| && forall i :: 0 <= i < |p| ==> Overlay(p, e)[i].0 == p[i].0
    ensures DistinctKeys(p) ==> DistinctKeys(Overlay(p, e))
    decreases |e|
  {
    if e != [] {
      var init := e[..|e| - 1];
      var last := e[|e| - 1];
      assert e == init + [last];
      OverlaySpec(p, init);
      var q := Overlay(p, init);
      PutSpec(q, last.0, last.1);
      forall k ensures HasKey(e, k) <==> HasKey(init, k) || k == last.0 {
        GetSnoc(init, last, k);
      }
      forall k ensures Get(Overlay(p, e), k) == if HasKey(e, k) then Get(e, k) else Get(p, k) {
        GetSnoc(init, last, k);
      }
    }
  }

  /** The keys overlaying appends after those of `p` are keys of `e`, in
      the order `e` lists them. */
  lemma {:induction false} OverlayOrder(p: Entries, e: Entries)
    requires DistinctKeys(e)
    ensures TailInOrder(Overlay(p, e), |p|, e)
    decreases |e|
  {
    if e != [] {
      var init := e[..|e| - 1];
      var last := e[|e| - 1];
      assert e == init + [last];
      OverlayOrder(p, init);
      LacksLaterKey(e, |e| - 1, init);
      TailInOrderPut(Overlay(p, init), |p|, init, last);
    }
  }
}
