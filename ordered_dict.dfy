/**
 * Python's built-in `dict` from text keys to float values, with the one
 * behaviour of it the assessment depends on: iteration follows insertion
 * order. `max(d, key=d.get)` keeps the first of several equal maxima and
 * `sorted(d.items(), ...)` keeps equal values in that order, so the order is
 * part of the model. This module also holds `sum(d.values())`, `dict(pairs)`
 * and the stable descending sort used for the emotion summary.
 */
module OrderedDict {

  /** The parts of a dict: its keys in insertion order, and what each key maps to. */
  datatype RawDict = RawDict(keys: seq<string>, vals: map<string, real>) {
    ghost predicate Valid() {
      && (forall i, j | 0 <= i < j < |keys| :: keys[i] != keys[j])
      && (forall k :: k in vals <==> k in keys)
    }
  }

  /** A dict: every key listed exactly once, in the order it was first inserted. */
  type Dict = d: RawDict | d.Valid() witness RawDict([], map[])

  const Empty: Dict := RawDict([], map[])

  /** `d.get(k, default)`. */
  function Get(d: Dict, k: string, default: real): real {
    if k in d.vals then d.vals[k] else default
  }

  /** `d[k] = v`: a new key is appended; an existing key keeps its position. */
  function Put(d: Dict, k: string, v: real): Dict {
    if k in d.vals then RawDict(d.keys, d.vals[k := v]) else RawDict(d.keys + [k], d.vals[k := v])
  }

  /** Putting a key never removes one and never reorders the keys already there. */
  lemma PutKeeps(d: Dict, k: string, v: real)
    ensures Put(d, k, v).vals.Keys == d.vals.Keys + {k}
    ensures Put(d, k, v).keys[..|d.keys|] == d.keys
    ensures Put(d, k, v).vals[k] == v
    ensures forall k' | k' in d.vals && k' != k :: Put(d, k, v).vals[k'] == d.vals[k']
  {
  }

  /** Two dicts with the same keys in the same order and the same value for each are the same dict. */
  lemma SameEntries(a: Dict, b: Dict)
    requires a.keys == b.keys
    requires forall k | k in a.vals :: k in b.vals && a.vals[k] == b.vals[k]
    ensures a == b
  {
    assert a.vals == b.vals;
  }

  /** `list(d.items())`. */
  function Items(d: Dict): seq<(string, real)> {
    seq(|d.keys|, i requires 0 <= i < |d.keys| => (d.keys[i], d.vals[d.keys[i]]))
  }

  /** The first components of a list of pairs. */
  function KeysOf(ps: seq<(string, real)>): seq<string> {
    seq(|ps|, i requires 0 <= i < |ps| => ps[i].0)
  }

  predicate DistinctKeys(ps: seq<(string, real)>) {
    forall i, j | 0 <= i < j < |ps| :: ps[i].0 != ps[j].0
  }

  /** The items of a dict name each key once, in key order. */
  lemma ItemsDistinct(d: Dict)
    ensures KeysOf(Items(d)) == d.keys
    ensures DistinctKeys(Items(d))
  {
  }

  /** `dict(pairs)`: later pairs overwrite earlier ones, and a key stays where it first appeared. */
  function FromPairs(ps: seq<(string, real)>): Dict {
    if ps == [] then Empty else Put(FromPairs(ps[..|ps| - 1]), ps[|ps| - 1].0, ps[|ps| - 1].1)
  }

  /** Building from a list extended by at most one pair is building, then putting that pair. */
  lemma FromPairsAppend(ps: seq<(string, real)>, qs: seq<(string, real)>)
    requires |qs| <= 1
    ensures FromPairs(ps + qs) == if qs == [] then FromPairs(ps) else Put(FromPairs(ps), qs[0].0, qs[0].1)
  {
    if qs == [] {
      assert ps + qs == ps;
    } else {
      assert (ps + qs)[..|ps|] == ps;
    }
  }

  /** A dict with the same keys in the same order, each value passed through `f`. */
  function MapValues(d: Dict, f: real -> real): (r: Dict)
    ensures r.keys == d.keys
    ensures forall k | k in d.vals :: k in r.vals && r.vals[k] == f(d.vals[k])
  {
    RawDict(d.keys, map k | k in d.vals :: f(d.vals[k]))
  }

  /** The set of keys of a list of pairs. */
  function KeySet(ps: seq<(string, real)>): set<string> {
    set i | 0 <= i < |ps| :: ps[i].0
  }

  lemma KeySetAppend(a: seq<(string, real)>, b: seq<(string, real)>)
    ensures KeySet(a + b) == KeySet(a) + KeySet(b)
  {
    var ab := a + b;
    forall k | k in KeySet(ab) ensures k in KeySet(a) + KeySet(b) {
      var i :| 0 <= i < |ab| && ab[i].0 == k;
      if i < |a| {
        assert a[i] == ab[i];
      } else {
        assert b[i - |a|] == ab[i];
      }
    }
    forall k | k in KeySet(a) + KeySet(b) ensures k in KeySet(ab) {
      if k in KeySet(a) {
        var i :| 0 <= i < |a| && a[i].0 == k;
        assert ab[i] == a[i];
      } else {
        var i :| 0 <= i < |b| && b[i].0 == k;
        assert ab[|a| + i] == b[i];
      }
    }
  }

  /** A key is in `dict(pairs)` exactly when some pair carries it. */
  lemma {:induction false} FromPairsKeys(ps: seq<(string, real)>)
    ensures FromPairs(ps).vals.Keys == KeySet(ps)
  {
    if ps != [] {
      var init, last := ps[..|ps| - 1], ps[|ps| - 1];
      FromPairsKeys(init);
      assert ps == init + [last];
      KeySetAppend(init, [last]);
      assert KeySet([last]) == {last.0} by {
        assert [last][0].0 == last.0;
      }
    }
  }

  /** The value of a key in `dict(pairs)` is that of the last pair carrying it. */
  lemma {:induction false} FromPairsLastWins(ps: seq<(string, real)>, i: nat)
    requires i < |ps| && forall j | i < j < |ps| :: ps[j].0 != ps[i].0
    ensures ps[i].0 in FromPairs(ps).vals && FromPairs(ps).vals[ps[i].0] == ps[i].1
  {
    if i < |ps| - 1 {
      var init := ps[..|ps| - 1];
      assert init[i] == ps[i];
      FromPairsLastWins(init, i);
    }
  }

  /** When no key repeats, `dict(pairs)` keeps the pairs' order and the pairs' values. */
  lemma {:induction false} FromPairsDistinct(ps: seq<(string, real)>)
    requires DistinctKeys(ps)
    ensures FromPairs(ps).keys == KeysOf(ps)
    ensures forall i | 0 <= i < |ps| :: ps[i].0 in FromPairs(ps).vals && FromPairs(ps).vals[ps[i].0] == ps[i].1
  {
    FromPairsDistinctKeys(ps);
    forall i | 0 <= i < |ps| ensures ps[i].0 in FromPairs(ps).vals && FromPairs(ps).vals[ps[i].0] == ps[i].1 {
      FromPairsLastWins(ps, i);
    }
  }

  /** Dropping the last pair keeps the keys distinct, and the last key occurs nowhere before it. */
  lemma DistinctKeysInit(ps: seq<(string, real)>)
    requires ps != [] && DistinctKeys(ps)
    ensures DistinctKeys(ps[..|ps| - 1])
    ensures ps[|ps| - 1].0 !in KeySet(ps[..|ps| - 1])
  {
    var init := ps[..|ps| - 1];
    assert forall i | 0 <= i < |init| :: init[i] == ps[i];
  }

  /** The keys of a list extended by one pair. */
  lemma KeysOfInit(ps: seq<(string, real)>)
    requires ps != []
    ensures KeysOf(ps) == KeysOf(ps[..|ps| - 1]) + [ps[|ps| - 1].0]
  {
    var init := ps[..|ps| - 1];
    assert forall i | 0 <= i < |init| :: KeysOf(ps)[i] == KeysOf(init)[i];
  }

  lemma {:induction false} FromPairsDistinctKeys(ps: seq<(string, real)>)
    requires DistinctKeys(ps)
    ensures FromPairs(ps).keys == KeysOf(ps)
  {
    if ps != [] {
      var init, last := ps[..|ps| - 1], ps[|ps| - 1];
      DistinctKeysInit(ps);
      FromPairsDistinctKeys(init);
      FromPairsKeys(init);
      var d := FromPairs(init);
      assert last.0 !in d.vals;
      assert FromPairs(ps) == Put(d, last.0, last.1);
      KeysOfInit(ps);
    }
  }

  /** `dict(d.items())` is `d` again. */
  lemma FromPairsItems(d: Dict)
    ensures FromPairs(Items(d)) == d
  {
    var ps := Items(d);
    var r := FromPairs(ps);
    ItemsDistinct(d);
    ItemsEntries(d);
    FromPairsDistinct(ps);
    FromPairsKeys(ps);
    forall k | k in d.vals ensures r.vals[k] == d.vals[k] {
      var i :| 0 <= i < |d.keys| && d.keys[i] == k;
      assert ps[i].0 == k;
    }
    assert r.vals == d.vals;
  }

  /** `sum(values)` over the listed keys, left to right. */
  function SumOver(keys: seq<string>, vals: map<string, real>): real
    requires forall k | k in keys :: k in vals
  {
    if keys == [] then 0.0 else SumOver(keys[..|keys| - 1], vals) + vals[keys[|keys| - 1]]
  }

  /** One more key adds its value to the sum. */
  lemma SumOverSnoc(keys: seq<string>, k: string, vals: map<string, real>)
    requires k in vals && forall k' | k' in keys :: k' in vals
    ensures SumOver(keys + [k], vals) == SumOver(keys, vals) + vals[k]
  {
    assert (keys + [k])[..|keys|] == keys;
  }

  /** The sum over six keys, written out. */
  lemma SumOverSix(keys: seq<string>, vals: map<string, real>)
    requires |keys| == 6 && forall k | k in keys :: k in vals
    ensures SumOver(keys, vals) ==
      vals[keys[0]] + vals[keys[1]] + vals[keys[2]] + vals[keys[3]] + vals[keys[4]] + vals[keys[5]]
  {
    var k1, k2, k3, k4, k5 := keys[..1], keys[..2], keys[..3], keys[..4], keys[..5];
    assert k1 == [keys[0]] && k1[..0] == [];
    assert k2 == k1 + [keys[1]] && k3 == k2 + [keys[2]] && k4 == k3 + [keys[3]];
    assert k5 == k4 + [keys[4]] && keys == k5 + [keys[5]];
    SumOverSnoc(k1, keys[1], vals);
    SumOverSnoc(k2, keys[2], vals);
    SumOverSnoc(k3, keys[3], vals);
    SumOverSnoc(k4, keys[4], vals);
    SumOverSnoc(k5, keys[5], vals);
  }

  /** `sum(d.values())`. */
  function SumValues(d: Dict): real {
    SumOver(d.keys, d.vals)
  }

  /** Multiplying every value by `c` multiplies the sum by `c`. */
  lemma {:induction false} SumOverScaled(keys: seq<string>, vals: map<string, real>, scaled: map<string, real>, c: real)
    requires forall k | k in keys :: k in vals && k in scaled && scaled[k] == vals[k] * c
    ensures SumOver(keys, scaled) == SumOver(keys, vals) * c
  {
    if keys != [] {
      var init := keys[..|keys| - 1];
      assert forall k | k in init :: k in keys;
      SumOverScaled(init, vals, scaled, c);
    }
  }

  /** When every value is `c`, the sum is the number of keys times `c`. */
  lemma {:induction false} SumOverConstant(keys: seq<string>, vals: map<string, real>, c: real)
    requires forall k | k in keys :: k in vals && vals[k] == c
    ensures SumOver(keys, vals) == |keys| as real * c
  {
    if keys != [] {
      var init := keys[..|keys| - 1];
      assert forall k | k in init :: k in keys;
      SumOverConstant(init, vals, c);
    }
  }

  /** When every value is a percentage, the sum lies between 0 and 100 times the number of keys. */
  lemma {:induction false} SumOverPercentages(keys: seq<string>, vals: map<string, real>)
    requires forall k | k in keys :: k in vals && 0.0 <= vals[k] <= 100.0
    ensures 0.0 <= SumOver(keys, vals) <= 100.0 * |keys| as real
  {
    if keys != [] {
      var init := keys[..|keys| - 1];
      assert forall k | k in init :: k in keys;
      SumOverPercentages(init, vals);
    }
  }

  /** Values in non-increasing order. */
  predicate NonIncreasing(ps: seq<(string, real)>) {
    forall i, j | 0 <= i < j < |ps| :: ps[i].1 >= ps[j].1
  }

  /** Places `p` after every element whose value is at least `p`'s. */
  function InsertDescending(p: (string, real), ps: seq<(string, real)>): seq<(string, real)> {
    if ps == [] then [p]
    else if ps[0].1 >= p.1 then [ps[0]] + InsertDescending(p, ps[1..])
    else [p] + ps
  }

  /**
   * `sorted(ps, key=lambda x: x[1], reverse=True)`. Python's sort is stable
   * also with `reverse=True`, so this is a stable insertion sort.
   */
  function SortDescending(ps: seq<(string, real)>): seq<(string, real)> {
    if ps == [] then [] else InsertDescending(ps[|ps| - 1], SortDescending(ps[..|ps| - 1]))
  }

  /** The elements of `ps` whose value is `v`, in their order in `ps`. */
  function WithValue(ps: seq<(string, real)>, v: real): seq<(string, real)> {
    if ps == [] then [] else (if ps[0].1 == v then [ps[0]] else []) + WithValue(ps[1..], v)
  }

  lemma {:induction false} WithValueAppend(a: seq<(string, real)>, b: seq<(string, real)>, v: real)
    ensures WithValue(a + b, v) == WithValue(a, v) + WithValue(b, v)
  {
    if a == [] {
      assert a + b == b;
    } else {
      var head := if a[0].1 == v then [a[0]] else [];
      calc {
        WithValue(a + b, v);
        { assert (a + b)[0] == a[0]; assert (a + b)[1..] == a[1..] + b; }
        head + WithValue(a[1..] + b, v);
        { WithValueAppend(a[1..], b, v); }
        head + (WithValue(a[1..], v) + WithValue(b, v));
        (head + WithValue(a[1..], v)) + WithValue(b, v);
      }
    }
  }

  lemma {:induction false} WithValueAbsent(ps: seq<(string, real)>, v: real)
    requires forall i | 0 <= i < |ps| :: ps[i].1 < v
    ensures WithValue(ps, v) == []
  {
    if ps != [] {
      WithValueAbsent(ps[1..], v);
    }
  }

  lemma {:induction false} InsertDescendingMultiset(p: (string, real), ps: seq<(string, real)>)
    ensures multiset(InsertDescending(p, ps)) == multiset(ps) + multiset{p}
  {
    var r := InsertDescending(p, ps);
    if ps != [] && ps[0].1 >= p.1 {
      var tail := ps[1..];
      InsertDescendingMultiset(p, tail);
      assert r == [ps[0]] + InsertDescending(p, tail);
      assert ps == [ps[0]] + tail;
      assert multiset(r) == multiset{ps[0]} + multiset(InsertDescending(p, tail));
      assert multiset(ps) == multiset{ps[0]} + multiset(tail);
    } else if ps != [] {
      assert r == [p] + ps;
    }
  }

  /** An element followed by a non-increasing sequence of values no larger than its own. */
  lemma ConsNonIncreasing(x: (string, real), rest: seq<(string, real)>)
    requires NonIncreasing(rest)
    requires forall i | 0 <= i < |rest| :: rest[i].1 <= x.1
    ensures NonIncreasing([x] + rest)
  {
    var r := [x] + rest;
    forall i, j | 0 <= i < j < |r| ensures r[i].1 >= r[j].1 {
      assert r[j] == rest[j - 1];
      if i > 0 {
        assert r[i] == rest[i - 1];
      }
    }
  }

  /** Inserting keeps every value under a common bound. */
  lemma {:induction false} InsertDescendingBounded(p: (string, real), ps: seq<(string, real)>, b: real)
    requires p.1 <= b
    requires forall i | 0 <= i < |ps| :: ps[i].1 <= b
    ensures forall i | 0 <= i < |InsertDescending(p, ps)| :: InsertDescending(p, ps)[i].1 <= b
  {
    var r := InsertDescending(p, ps);
    if ps != [] && ps[0].1 >= p.1 {
      var tail := ps[1..];
      forall i | 0 <= i < |tail| ensures tail[i].1 <= b {
        assert tail[i] == ps[i + 1];
      }
      InsertDescendingBounded(p, tail, b);
      var rest := InsertDescending(p, tail);
      assert r == [ps[0]] + rest;
      forall i | 0 <= i < |r| ensures r[i].1 <= b {
        if i > 0 {
          assert r[i] == rest[i - 1];
        }
      }
    } else if ps != [] {
      assert r == [p] + ps;
      forall i | 0 <= i < |r| ensures r[i].1 <= b {
        if i > 0 {
          assert r[i] == ps[i - 1];
        }
      }
    }
  }

  lemma {:induction false} InsertDescendingSorted(p: (string, real), ps: seq<(string, real)>)
    requires NonIncreasing(ps)
    ensures NonIncreasing(InsertDescending(p, ps))
  {
    if ps != [] && ps[0].1 >= p.1 {
      var tail := ps[1..];
      forall i, j | 0 <= i < j < |tail| ensures tail[i].1 >= tail[j].1 {
        assert tail[i] == ps[i + 1] && tail[j] == ps[j + 1];
      }
      InsertDescendingSorted(p, tail);
      forall i | 0 <= i < |tail| ensures tail[i].1 <= ps[0].1 {
        assert tail[i] == ps[i + 1];
      }
      InsertDescendingBounded(p, tail, ps[0].1);
      ConsNonIncreasing(ps[0], InsertDescending(p, tail));
    } else if ps != [] {
      forall i | 0 <= i < |ps| ensures ps[i].1 <= p.1 {
        if i > 0 {
          assert ps[0].1 >= ps[i].1;
        }
      }
      ConsNonIncreasing(p, ps);
    }
  }

  lemma {:induction false} InsertDescendingStable(p: (string, real), ps: seq<(string, real)>, v: real)
    requires NonIncreasing(ps)
    ensures WithValue(InsertDescending(p, ps), v) == WithValue(ps, v) + (if p.1 == v then [p] else [])
  {
    var r := InsertDescending(p, ps);
    var pv := if p.1 == v then [p] else [];
    if ps == [] {
      assert WithValue([p], v) == pv + WithValue([], v);
    } else if ps[0].1 >= p.1 {
      var tail := ps[1..];
      assert NonIncreasing(tail) by {
        forall i, j | 0 <= i < j < |tail| ensures tail[i].1 >= tail[j].1 {
          assert tail[i] == ps[i + 1] && tail[j] == ps[j + 1];
        }
      }
      var rest := InsertDescending(p, tail);
      var head := if ps[0].1 == v then [ps[0]] else [];
      calc {
        WithValue(r, v);
        { assert r == [ps[0]] + rest; assert r[0] == ps[0] && r[1..] == rest; }
        head + WithValue(rest, v);
        { InsertDescendingStable(p, tail, v); }
        head + (WithValue(tail, v) + pv);
        (head + WithValue(tail, v)) + pv;
        WithValue(ps, v) + pv;
      }
    } else {
      assert r == [p] + ps;
      calc {
        WithValue(r, v);
        { assert r[0] == p && r[1..] == ps; }
        pv + WithValue(ps, v);
        {
          if p.1 == v {
            forall i | 0 <= i < |ps| ensures ps[i].1 < v {
              assert ps[0].1 >= ps[i].1;
            }
            WithValueAbsent(ps, v);
          }
        }
        WithValue(ps, v) + pv;
      }
    }
  }

  /** The sort returns a permutation of its input, in non-increasing order of value. */
  lemma {:induction false} SortDescendingSorted(ps: seq<(string, real)>)
    ensures NonIncreasing(SortDescending(ps))
    ensures multiset(SortDescending(ps)) == multiset(ps)
  {
    if ps != [] {
      var init, last := ps[..|ps| - 1], ps[|ps| - 1];
      SortDescendingSorted(init);
      InsertDescendingSorted(last, SortDescending(init));
      InsertDescendingMultiset(last, SortDescending(init));
      assert ps == init + [last];
    }
  }

  /** The sort is stable: the elements of any one value keep their input order. */
  lemma {:induction false} SortDescendingStable(ps: seq<(string, real)>, v: real)
    ensures WithValue(SortDescending(ps), v) == WithValue(ps, v)
  {
    if ps != [] {
      var init, last := ps[..|ps| - 1], ps[|ps| - 1];
      var lastv := if last.1 == v then [last] else [];
      calc {
        WithValue(SortDescending(ps), v);
        WithValue(InsertDescending(last, SortDescending(init)), v);
        { SortDescendingSorted(init); InsertDescendingStable(last, SortDescending(init), v); }
        WithValue(SortDescending(init), v) + lastv;
        { SortDescendingStable(init, v); }
        WithValue(init, v) + lastv;
        { assert WithValue([last], v) == lastv + WithValue([], v); }
        WithValue(init, v) + WithValue([last], v);
        { WithValueAppend(init, [last], v); }
        WithValue(init + [last], v);
        { assert init + [last] == ps; }
        WithValue(ps, v);
      }
    }
  }

  lemma {:induction false} InsertDescendingKeys(p: (string, real), ps: seq<(string, real)>)
    requires DistinctKeys(ps) && p.0 !in KeySet(ps)
    ensures DistinctKeys(InsertDescending(p, ps))
    ensures KeySet(InsertDescending(p, ps)) == KeySet(ps) + {p.0}
  {
    var r := InsertDescending(p, ps);
    assert KeySet([p]) == {p.0} by {
      assert [p][0].0 == p.0;
    }
    if ps != [] && ps[0].1 >= p.1 {
      var tail := ps[1..];
      assert ps == [ps[0]] + tail;
      assert KeySet([ps[0]]) == {ps[0].0} by {
        assert [ps[0]][0].0 == ps[0].0;
      }
      KeySetAppend([ps[0]], tail);
      forall i | 0 <= i < |tail| ensures tail[i].0 != ps[0].0 {
        assert tail[i] == ps[i + 1];
      }
      assert ps[0].0 !in KeySet(tail);
      InsertDescendingKeys(p, tail);
      var rest := InsertDescending(p, tail);
      assert r == [ps[0]] + rest;
      KeySetAppend([ps[0]], rest);
      forall i, j | 0 <= i < j < |r| ensures r[i].0 != r[j].0 {
        assert r[j] == rest[j - 1];
        if i > 0 {
          assert r[i] == rest[i - 1];
        } else {
          assert r[j].0 in KeySet(rest);
        }
      }
    } else if ps != [] {
      assert r == [p] + ps;
      KeySetAppend([p], ps);
      forall i, j | 0 <= i < j < |r| ensures r[i].0 != r[j].0 {
        assert r[j] == ps[j - 1];
        if i > 0 {
          assert r[i] == ps[i - 1];
        } else {
          assert r[j].0 in KeySet(ps);
        }
      }
    }
  }

  /** Sorting keeps a list of pairs free of repeated keys, and keeps its set of keys. */
  lemma {:induction false} SortDescendingKeys(ps: seq<(string, real)>)
    requires DistinctKeys(ps)
    ensures DistinctKeys(SortDescending(ps))
    ensures KeySet(SortDescending(ps)) == KeySet(ps)
  {
    if ps != [] {
      var init, last := ps[..|ps| - 1], ps[|ps| - 1];
      SortDescendingKeys(init);
      forall i | 0 <= i < |init| ensures init[i].0 != last.0 {
        assert init[i] == ps[i];
      }
      assert last.0 !in KeySet(init);
      InsertDescendingKeys(last, SortDescending(init));
      assert ps == init + [last];
      KeySetAppend(init, [last]);
      assert KeySet([last]) == {last.0} by {
        assert [last][0].0 == last.0;
      }
    }
  }

  /** `dict(sorted(d.items(), key=lambda x: x[1], reverse=True))`. */
  function SortedByValue(d: Dict): Dict {
    FromPairs(SortDescending(Items(d)))
  }

  /** Every item of a dict is one of its entries, and every key gives one. */
  lemma ItemsEntries(d: Dict)
    ensures KeySet(Items(d)) == d.vals.Keys
    ensures forall x | x in Items(d) :: x.0 in d.vals && x.1 == d.vals[x.0]
  {
    var ps := Items(d);
    forall k | k in d.vals ensures k in KeySet(ps) {
      var i :| 0 <= i < |d.keys| && d.keys[i] == k;
      assert ps[i].0 == k;
    }
  }

  /** A list of distinct-key pairs that are all entries of `d`, and name all its keys, rebuilds `d`'s entries. */
  lemma FromPairsOfEntries(ps: seq<(string, real)>, d: Dict)
    requires DistinctKeys(ps) && KeySet(ps) == d.vals.Keys
    requires forall x | x in ps :: x.0 in d.vals && x.1 == d.vals[x.0]
    ensures FromPairs(ps).vals == d.vals
  {
    FromPairsKeys(ps);
    forall k | k in FromPairs(ps).vals ensures FromPairs(ps).vals[k] == d.vals[k] {
      var i :| 0 <= i < |ps| && ps[i].0 == k;
      FromPairsLastWins(ps, i);
    }
  }

  lemma SortDescendingMembers(ps: seq<(string, real)>)
    ensures forall x | x in SortDescending(ps) :: x in ps
  {
    SortDescendingSorted(ps);
    assert forall x | x in SortDescending(ps) :: x in multiset(SortDescending(ps));
  }

  /** Sorting a dict by value keeps exactly its entries. */
  lemma SortedByValueEntries(d: Dict)
    ensures SortedByValue(d).vals == d.vals
  {
    var ps := Items(d);
    ItemsDistinct(d);
    ItemsEntries(d);
    SortDescendingKeys(ps);
    SortDescendingMembers(ps);
    FromPairsOfEntries(SortDescending(ps), d);
  }

  /** Built from pairs with distinct keys, a dict lists exactly those pairs as its items. */
  lemma ItemsOfDistinct(ps: seq<(string, real)>)
    requires DistinctKeys(ps)
    ensures Items(FromPairs(ps)) == ps
  {
    FromPairsDistinct(ps);
    var r := FromPairs(ps);
    forall i | 0 <= i < |ps| ensures Items(r)[i] == ps[i] {
      assert r.keys[i] == KeysOf(ps)[i] == ps[i].0;
    }
  }

  /**
   * Sorting a dict by value orders its keys by non-increasing value, is a
   * permutation of its items, and keeps equal values in insertion order.
   */
  lemma SortedByValueOrder(d: Dict)
    ensures forall i, j | 0 <= i < j < |SortedByValue(d).keys| ::
      SortedByValue(d).vals[SortedByValue(d).keys[i]] >= SortedByValue(d).vals[SortedByValue(d).keys[j]]
    ensures multiset(Items(SortedByValue(d))) == multiset(Items(d))
    ensures forall v :: WithValue(Items(SortedByValue(d)), v) == WithValue(Items(d), v)
  {
    var ps := Items(d);
    var sorted := SortDescending(ps);
    ItemsDistinct(d);
    SortDescendingSorted(ps);
    SortDescendingKeys(ps);
    FromPairsDistinct(sorted);
    var r := FromPairs(sorted);
    ItemsOfDistinct(sorted);
    forall v ensures WithValue(Items(r), v) == WithValue(ps, v) {
      SortDescendingStable(ps, v);
    }
    forall i, j | 0 <= i < j < |r.keys| ensures r.vals[r.keys[i]] >= r.vals[r.keys[j]] {
      assert r.vals[r.keys[i]] == sorted[i].1 && r.vals[r.keys[j]] == sorted[j].1;
    }
  }
}
