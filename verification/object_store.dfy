/**
 * The parts of an IndexedDB object store that the two database classes rely on:
 * records kept under integer primary keys, `getAll()` returning them in ascending
 * key order, and the key generator behind `autoIncrement: true`.
 */
module ObjectStore {
  import Seqs

  lemma {:induction false} LeastKeyExists(keys: set<int>)
    requires keys != {}
    ensures exists m :: m in keys && forall k :: k in keys ==> m <= k
    decreases |keys|
  {
    var x := LeastOf(keys);
    if keys != {x} {
      LeastKeyExists(keys - {x});
      var m :| m in keys - {x} && forall k :: k in keys - {x} ==> m <= k;
      var least := if x < m then x else m;
      assert least in keys;
      forall k | k in keys ensures least <= k {
        if k != x {
          assert k in keys - {x};
        }
      }
    } else {
      assert forall k :: k in keys ==> x <= k;
    }
  }

  /** A key set is empty or has a member (set extensionality, spelled out). */
  lemma {:induction false} EmptyOrInhabited(keys: set<int>)
    ensures keys == {} || exists x :: x in keys
  {
    if !exists x :: x in keys {
      assert forall x :: x in keys <==> x in {};
    }
  }

  /** Some element of a non-empty key set. */
  ghost function LeastOf(keys: set<int>): (x: int)
    requires keys != {}
    ensures x in keys
  {
    EmptyOrInhabited(keys);
    var x :| x in keys; x
  }

  /** The smallest key of a non-empty key set. */
  function LeastKey(keys: set<int>): (m: int)
    requires keys != {}
    ensures m in keys && forall k :: k in keys ==> m <= k
  {
    LeastKeyExists(keys);
    var m :| m in keys && forall k :: k in keys ==> m <= k;
    m
  }

  /** The keys of a store in the order a cursor visits them. */
  function AscendingKeys(keys: set<int>): (r: seq<int>)
    ensures |r| == |keys|
    ensures forall k :: k in r <==> k in keys
    ensures forall i, j :: 0 <= i < j < |r| ==> r[i] < r[j]
    decreases |keys|
  {
    if keys == {} then []
    else
      var m := LeastKey(keys);
      var rest := AscendingKeys(keys - {m});
      AscendingCons(keys, m, rest);
      [m] + rest
  }

  /** The least key in front of the ascending list of the others is the ascending list of them all. */
  lemma {:induction false} AscendingCons(keys: set<int>, m: int, rest: seq<int>)
    requires m in keys && forall k :: k in keys ==> m <= k
    requires |rest| == |keys - {m}| && forall k :: k in rest <==> k in keys - {m}
    requires forall i, j :: 0 <= i < j < |rest| ==> rest[i] < rest[j]
    ensures |[m] + rest| == |keys|
    ensures forall k :: k in [m] + rest <==> k in keys
    ensures forall i, j :: 0 <= i < j < |[m] + rest| ==> ([m] + rest)[i] < ([m] + rest)[j]
  {
    var r := [m] + rest;
    forall i, j | 0 <= i < j < |r| ensures r[i] < r[j] {
      assert r[j] == rest[j - 1] && r[j] in rest;
      if i > 0 {
        assert r[i] == rest[i - 1];
      }
    }
  }

  /** `store.getAll()`: every stored record, in ascending key order. */
  function GetAll<T>(m: map<int, T>): (r: seq<T>)
    ensures |r| == |m|
  {
    var ks := AscendingKeys(m.Keys);
    seq(|ks|, i requires 0 <= i < |ks| => m[ks[i]])
  }

  /** `getAll()` returns each stored record, and nothing else. */
  lemma {:induction false} GetAllMembers<T>(m: map<int, T>, v: T)
    ensures v in GetAll(m) <==> exists k :: k in m && m[k] == v
  {
    var ks := AscendingKeys(m.Keys);
    var r := GetAll(m);
    if v in r {
      var i :| 0 <= i < |r| && r[i] == v;
      assert ks[i] in m && m[ks[i]] == v;
    }
    if k :| k in m && m[k] == v {
      assert k in ks;
      var i :| 0 <= i < |ks| && ks[i] == k;
      assert r[i] == v;
    }
  }

  /**
   * Where every record carries its own key as `id`, `getAll()` lists the records by
   * strictly increasing id: each stored record once, in key order.
   */
  lemma {:induction false} GetAllAscending<T>(m: map<int, T>, id: T -> int)
    requires forall k :: k in m ==> id(m[k]) == k
    ensures Seqs.StrictlyIncreasing(GetAll(m), id)
  {
    var ks := AscendingKeys(m.Keys);
    var r := GetAll(m);
    forall i, j | 0 <= i < j < |r| ensures id(r[i]) < id(r[j]) {
      assert r[i] == m[ks[i]] && r[j] == m[ks[j]];
    }
  }

  /** Every key in use lies below the generator's current number, so the next generated key is fresh. */
  ghost predicate KeysBelow<T>(m: map<int, T>, next: int) {
    forall k :: k in m ==> k < next
  }

  /** A record written under the generator's next key takes a fresh key, and the generator moves past it. */
  lemma {:induction false} FreshKeyWrite<T>(m: map<int, T>, next: int, v: T)
    requires KeysBelow(m, next)
    ensures next !in m && KeysBelow(m[next := v], next + 1)
  {
  }

  /**
   * The generator after a record is written under an explicit `key`: a key at or
   * above the current number moves the generator past it.
   */
  function BumpGenerator(next: int, key: int): (r: int)
    ensures r > key && r >= next
    ensures key < next ==> r == next
  {
    if key >= next then key + 1 else next
  }
}
