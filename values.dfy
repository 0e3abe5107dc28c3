/**
  Python values as they arrive in GraphQL request variables and mutation data,
  and the few dictionary operations the CRUD layer applies to them. A dictionary
  is an association list with distinct keys, in insertion order.
 */
module Values {
  import opened Seqs

  datatype Value =
    | VNone
    | VBool(b: bool)
    | VInt(i: int)
    | VStr(s: string)
    | VEnum(member: string, value: Value)   // a member of a Python Enum; `value` is its `.value`
    | VList(elems: seq<Value>)
    | VDict(entries: seq<(string, Value)>)

  type Entries = seq<(string, Value)>

  /** Python truthiness (`if v:`); Enum members are truthy. */
  predicate Truthy(v: Value)
  {
    match v
    case VNone => false
    case VBool(b) => b
    case VInt(i) => i != 0
    case VStr(s) => s != []
    case VEnum(_, _) => true
    case VList(es) => es != []
    case VDict(es) => es != []
  }

  /** The integer a bool stands for in arithmetic and comparison. */
  function BoolInt(b: bool): int
  {
    if b then 1 else 0
  }

  /** Entry `i` is the first under its key, the one `Get` and the dictionary see. */
  predicate FirstUnderKey(d: Entries, i: int)
    requires 0 <= i < |d|
  {
    forall j :: 0 <= j < i ==> d[j].0 != d[i].0
  }

  /**
    Python's `==`: `True == 1` and `False == 0`, lists compare element by element,
    and dictionaries compare by their set of keys and the value under each key,
    whatever the order their entries were inserted in. An Enum member equals only
    itself (class identity is not recorded, so a member stands for itself by name and value).
   */
  predicate PyEq(a: Value, b: Value)
    decreases a
  {
    match a
    case VNone => b.VNone?
    case VBool(x) => (b.VBool? && b.b == x) || (b.VInt? && b.i == BoolInt(x))
    case VInt(x) => (b.VInt? && b.i == x) || (b.VBool? && BoolInt(b.b) == x)
    case VStr(x) => b.VStr? && b.s == x
    case VEnum(_, _) => b == a
    case VList(xs) =>
      && b.VList? && |xs| == |b.elems|
      && forall i :: 0 <= i < |xs| ==> PyEq(xs[i], b.elems[i])
    case VDict(es) =>
      && b.VDict?
      && (forall i :: 0 <= i < |es| ==> HasKey(b.entries, es[i].0))
      && (forall j :: 0 <= j < |b.entries| ==> HasKey(es, b.entries[j].0))
      && forall i :: 0 <= i < |es| && FirstUnderKey(es, i) ==> PyEq(es[i].1, Get(b.entries, es[i].0))
  }

  /** Every value equals itself. */
  lemma {:induction false} PyEqRefl(a: Value)
    ensures PyEq(a, a)
    decreases a
  {
    match a
    case VList(xs) =>
      forall i | 0 <= i < |xs| ensures PyEq(xs[i], xs[i]) {
        PyEqRefl(xs[i]);
      }
    case VDict(es) =>
      forall i | 0 <= i < |es| ensures HasKey(es, es[i].0) {
        assert Keys(es)[i] == es[i].0;
      }
      forall i | 0 <= i < |es| && FirstUnderKey(es, i) ensures PyEq(es[i].1, Get(es, es[i].0)) {
        PyEqRefl(es[i].1);
      }
    case _ =>
  }

  /** Two dictionaries with the same items in another order are equal. */
  lemma PyEqReordered(k1: string, v1: Value, k2: string, v2: Value)
    requires k1 != k2
    ensures PyEq(VDict([(k1, v1), (k2, v2)]), VDict([(k2, v2), (k1, v1)]))
  {
    var d1, d2 := [(k1, v1), (k2, v2)], [(k2, v2), (k1, v1)];
    assert Keys(d1) == [k1, k2] && Keys(d2) == [k2, k1];
    PyEqRefl(v1);
    PyEqRefl(v2);
  }

  /** `True == 1`, but a dictionary with an extra key and a list in another order differ. */
  lemma PyEqExamples()
    ensures PyEq(VBool(true), VInt(1)) && !PyEq(VBool(true), VInt(2))
    ensures !PyEq(VDict([("a", VInt(1))]), VDict([("a", VInt(1)), ("b", VInt(1))]))
    ensures !PyEq(VList([VInt(1), VInt(2)]), VList([VInt(2), VInt(1)]))
  {
    var small, big := [("a", VInt(1))], [("a", VInt(1)), ("b", VInt(1))];
    assert !HasKey(small, big[1].0) by { assert Keys(small) == ["a"]; }
    var xs, ys := [VInt(1), VInt(2)], [VInt(2), VInt(1)];
    assert !PyEq(xs[0], ys[0]);
  }

  function Keys(d: Entries): (ks: seq<string>)
    ensures |ks| == |d| && forall i :: 0 <= i < |d| ==> ks[i] == d[i].0
  {
    seq(|d|, i requires 0 <= i < |d| => d[i].0)
  }

  ghost predicate DistinctKeys(d: Entries)
  {
    forall i, j :: 0 <= i < j < |d| ==> d[i].0 != d[j].0
  }

  predicate HasKey(d: Entries, k: string)
  {
    k in Keys(d)
  }

  /** `d.get(k)`: the value stored under `k`, or None when `k` is absent. */
  function Get(d: Entries, k: string): (v: Value)
    ensures !HasKey(d, k) ==> v == VNone
    ensures forall i :: 0 <= i < |d| && d[i].0 == k && (forall j :: 0 <= j < i ==> d[j].0 != k) ==> v == d[i].1
  {
    if d == [] then VNone
    else if d[0].0 == k then d[0].1
    else
      assert forall i :: 1 <= i < |d| ==> d[i] == d[1..][i - 1];
      Get(d[1..], k)
  }

  /** `d.pop(k, None)` on the dictionary: every entry but the one under `k`, in order. */
  function Without(d: Entries, k: string): (r: Entries)
  {
    Filter(d, (e: (string, Value)) => e.0 != k)
  }

  /** `d[k] = v`: replaces the value in place when `k` is present, else appends. */
  function Put(d: Entries, k: string, v: Value): (r: Entries)
  {
    if HasKey(d, k) then seq(|d|, i requires 0 <= i < |d| => if d[i].0 == k then (k, v) else d[i])
    else d + [(k, v)]
  }

  lemma {:induction false} GetWithout(d: Entries, k: string, j: string)
    ensures Get(Without(d, k), j) == if j == k then VNone else Get(d, j)
  {
    if d != [] {
      GetWithout(d[1..], k, j);
      var rest := Without(d[1..], k);
      if d[0].0 != k {
        assert Without(d, k) == [d[0]] + rest;
        assert ([d[0]] + rest)[1..] == rest;
      } else {
        assert Without(d, k) == rest;
      }
    }
  }

  lemma WithoutKeepsDistinct(d: Entries, k: string)
    requires DistinctKeys(d)
    ensures DistinctKeys(Without(d, k)) && !HasKey(Without(d, k), k)
  {
    var key := (e: (string, Value)) => e.0;
    assert UniqueBy(d, key) by {
      forall i, j | 0 <= i < |d| && 0 <= j < |d| && key(d[i]) == key(d[j]) ensures i == j {
      }
    }
    FilterUniqueBy(d, (e: (string, Value)) => e.0 != k, key);
    var r := Without(d, k);
    FilterMembers(d, (e: (string, Value)) => e.0 != k);
    assert UniqueBy(r, key);
    assert !HasKey(r, k) by {
      forall i | 0 <= i < |r| ensures Keys(r)[i] != k {
        assert r[i] in d;
      }
    }
  }

  lemma {:induction false} GetPut(d: Entries, k: string, v: Value, j: string)
    requires DistinctKeys(d)
    ensures DistinctKeys(Put(d, k, v)) && Keys(Put(d, k, v)) == if HasKey(d, k) then Keys(d) else Keys(d) + [k]
    ensures Get(Put(d, k, v), j) == if j == k then v else Get(d, j)
  {
    var r := Put(d, k, v);
    if HasKey(d, k) {
      assert Keys(r) == Keys(d);
      GetSameKeys(d, r, k, v, j);
    } else {
      assert Keys(r) == Keys(d) + [k];
      GetAppend(d, k, v, j);
    }
  }

  lemma {:induction false} GetSameKeys(d: Entries, r: Entries, k: string, v: Value, j: string)
    requires |r| == |d|
    requires forall i :: 0 <= i < |d| ==> r[i] == if d[i].0 == k then (k, v) else d[i]
    ensures Get(r, j) == if j == k && HasKey(d, k) then v else Get(d, j)
  {
    if d != [] {
      GetSameKeys(d[1..], r[1..], k, v, j);
      if d[0].0 != k {
        assert HasKey(d, k) == HasKey(d[1..], k) by {
          assert Keys(d) == [d[0].0] + Keys(d[1..]);
        }
      } else {
        assert HasKey(d, k) by { assert Keys(d)[0] == k; }
      }
    }
  }

  lemma {:induction false} GetAppend(d: Entries, k: string, v: Value, j: string)
    requires !HasKey(d, k)
    ensures Get(d + [(k, v)], j) == if j == k then v else Get(d, j)
  {
    if d == [] {
      assert d + [(k, v)] == [(k, v)];
    } else {
      assert (d + [(k, v)])[1..] == d[1..] + [(k, v)];
      assert Keys(d) == [d[0].0] + Keys(d[1..]);
      GetAppend(d[1..], k, v, j);
    }
  }
}
