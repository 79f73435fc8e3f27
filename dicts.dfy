/**
 * Python dictionaries with string keys, kept in insertion order as a
 * sequence of (key, value) pairs.
 *
 * A dict literal `{k1: v1, k2: v2, ...}` is evaluated left to right by
 * assigning each pair in turn, so a repeated key keeps the position of its
 * first appearance and the value of its last one.
 */
module Dicts {
  import opened Wrappers

  type Dict<V> = seq<(string, V)>

  function Keys<V>(d: Dict<V>): (ks: seq<string>)
    ensures |ks| == |d|
    ensures forall i | 0 <= i < |d| :: ks[i] == d[i].0
  {
    seq(|d|, i requires 0 <= i < |d| => d[i].0)
  }

  predicate DistinctKeys<V>(d: Dict<V>) {
    forall i, j | 0 <= i < j < |d| :: d[i].0 != d[j].0
  }

  predicate HasKey<V>(d: Dict<V>, k: string) {
    exists i | 0 <= i < |d| :: d[i].0 == k
  }

  /** `d.get(k)`: the value paired with the first occurrence of `k`. */
  function Get<V>(d: Dict<V>, k: string): (r: Option<V>)
    ensures r.None? <==> !HasKey(d, k)
    ensures r.Some? ==> exists i | 0 <= i < |d| :: d[i] == (k, r.value)
  {
    if d == [] then None
    else if d[0].0 == k then Some(d[0].1)
    else
      assert forall i | 1 <= i < |d| :: d[i] == d[1..][i - 1];
      Get(d[1..], k)
  }

  /** `d.get(k, default)` */
  function GetOr<V>(d: Dict<V>, k: string, default: V): V {
    Get(d, k).GetOr(default)
  }

  /** Position of the first occurrence of `k`. */
  function IndexOf<V>(d: Dict<V>, k: string): (i: nat)
    requires HasKey(d, k)
    ensures i < |d| && d[i].0 == k
    ensures forall j | 0 <= j < i :: d[j].0 != k
  {
    if d[0].0 == k then 0
    else
      assert HasKey(d[1..], k) by {
        var i :| 0 <= i < |d| && d[i].0 == k;
        assert d[1..][i - 1].0 == k;
      }
      1 + IndexOf(d[1..], k)
  }

  /**
   * `d[k] = v`: an existing key keeps its position and gets the new value;
   * a new key is appended at the end.
   */
  function Set<V>(d: Dict<V>, k: string, v: V): (r: Dict<V>)
    ensures HasKey(d, k) ==> |r| == |d| && r == d[IndexOf(d, k) := (k, v)]
    ensures !HasKey(d, k) ==> r == d + [(k, v)]
  {
    if HasKey(d, k) then d[IndexOf(d, k) := (k, v)] else d + [(k, v)]
  }

  /** Assigning a key leaves the other keys, their order and their values alone. */
  lemma SetGet<V>(d: Dict<V>, k: string, v: V, q: string)
    ensures Get(Set(d, k, v), q) == if q == k then Some(v) else Get(d, q)
    ensures Keys(Set(d, k, v)) == if HasKey(d, k) then Keys(d) else Keys(d) + [k]
  {
    var r := Set(d, k, v);
    if HasKey(d, k) {
      var i := IndexOf(d, k);
      GetUpdate(d, i, k, v, q);
    } else {
      GetAppend(d, k, v, q);
    }
  }

  lemma {:induction false} GetUpdate<V>(d: Dict<V>, i: nat, k: string, v: V, q: string)
    requires i < |d| && d[i].0 == k && forall j | 0 <= j < i :: d[j].0 != k
    ensures Get(d[i := (k, v)], q) == if q == k then Some(v) else Get(d, q)
  {
    if i > 0 {
      assert d[i := (k, v)][1..] == d[1..][i - 1 := (k, v)];
      GetUpdate(d[1..], i - 1, k, v, q);
    }
  }

  lemma {:induction false} GetAppend<V>(d: Dict<V>, k: string, v: V, q: string)
    requires !HasKey(d, k)
    ensures Get(d + [(k, v)], q) == if q == k then Some(v) else Get(d, q)
  {
    if d != [] {
      assert (d + [(k, v)])[1..] == d[1..] + [(k, v)];
      assert !HasKey(d[1..], k) by {
        forall i | 0 <= i < |d[1..]| ensures d[1..][i].0 != k {
          assert d[1..][i] == d[i + 1];
        }
      }
      GetAppend(d[1..], k, v, q);
    }
  }

  /** The dict built by evaluating the first `n` pairs of a literal. */
  function FromLiteral<V>(lit: seq<(string, V)>, n: nat): (d: Dict<V>)
    requires n <= |lit|
  {
    if n == 0 then [] else Set(FromLiteral(lit, n - 1), lit[n - 1].0, lit[n - 1].1)
  }

  /** The value a literal's last occurrence of `k` among its first `n` pairs gives. */
  function LastValue<V>(lit: seq<(string, V)>, k: string, n: nat): (r: Option<V>)
    requires n <= |lit|
  {
    if n == 0 then None
    else if lit[n - 1].0 == k then Some(lit[n - 1].1)
    else LastValue(lit, k, n - 1)
  }

  /** `LastValue` finds the last pair with key `k`, and nothing when there is none. */
  lemma {:induction false} LastValueSpec<V>(lit: seq<(string, V)>, k: string, n: nat)
    requires n <= |lit|
    ensures LastValue(lit, k, n).None? <==> forall i | 0 <= i < n :: lit[i].0 != k
    ensures LastValue(lit, k, n).Some? ==> exists i | 0 <= i < n ::
      (lit[i] == (k, LastValue(lit, k, n).value) && forall j | i < j < n :: lit[j].0 != k)
  {
    if n > 0 && lit[n - 1].0 != k {
      LastValueSpec(lit, k, n - 1);
    }
  }

  /** A key absent from positions `n` to `k - 1` of a literal keeps its last value from before `n`. */
  lemma {:induction false} LastValueAbsent<V>(lit: seq<(string, V)>, key: string, n: nat, k: nat)
    requires n <= k <= |lit|
    requires forall j | n <= j < k :: lit[j].0 != key
    ensures LastValue(lit, key, k) == LastValue(lit, key, n)
    decreases k - n
  {
    if k > n {
      LastValueAbsent(lit, key, n, k - 1);
    }
  }

  /** The pair at position `i` of a literal gives its key's value when no later pair repeats the key. */
  lemma FromLiteralGetAt<V>(lit: seq<(string, V)>, n: nat, i: nat)
    requires i < n <= |lit|
    requires forall j | i < j < n :: lit[j].0 != lit[i].0
    ensures Get(FromLiteral(lit, n), lit[i].0) == Some(lit[i].1)
  {
    LastValueAbsent(lit, lit[i].0, i + 1, n);
    FromLiteralGet(lit, n, lit[i].0);
  }

  /** The keys of a literal in the order of their first appearance. */
  function FirstKeys<V>(lit: seq<(string, V)>, n: nat): seq<string>
    requires n <= |lit|
  {
    if n == 0 then []
    else if lit[n - 1].0 in FirstKeys(lit, n - 1) then FirstKeys(lit, n - 1)
    else FirstKeys(lit, n - 1) + [lit[n - 1].0]
  }

  lemma HasKeyIff<V>(d: Dict<V>, k: string)
    ensures HasKey(d, k) <==> k in Keys(d)
  {
    if k in Keys(d) {
      var i :| 0 <= i < |Keys(d)| && Keys(d)[i] == k;
      assert d[i].0 == k;
    }
  }

  /** Looking a key up in an evaluated literal gives its last value. */
  lemma {:induction false} FromLiteralGet<V>(lit: seq<(string, V)>, n: nat, k: string)
    requires n <= |lit|
    ensures Get(FromLiteral(lit, n), k) == LastValue(lit, k, n)
  {
    if n > 0 {
      FromLiteralGet(lit, n - 1, k);
      SetGet(FromLiteral(lit, n - 1), lit[n - 1].0, lit[n - 1].1, k);
    }
  }

  /** An evaluated literal keeps its keys in the order of their first appearance. */
  lemma {:induction false} FromLiteralKeys<V>(lit: seq<(string, V)>, n: nat)
    requires n <= |lit|
    ensures Keys(FromLiteral(lit, n)) == FirstKeys(lit, n)
  {
    if n > 0 {
      var d := FromLiteral(lit, n - 1);
      var (k, v) := lit[n - 1];
      FromLiteralKeys(lit, n - 1);
      HasKeyIff(d, k);
      SetGet(d, k, v, k);
      assert FromLiteral(lit, n) == Set(d, k, v);
      if k in Keys(d) {
        assert FirstKeys(lit, n) == FirstKeys(lit, n - 1);
      } else {
        assert FirstKeys(lit, n) == FirstKeys(lit, n - 1) + [k];
      }
    }
  }

  lemma {:induction false} FirstKeysDistinct<V>(lit: seq<(string, V)>, n: nat)
    requires n <= |lit|
    ensures forall i, j | 0 <= i < j < |FirstKeys(lit, n)| :: FirstKeys(lit, n)[i] != FirstKeys(lit, n)[j]
  {
    if n > 0 {
      FirstKeysDistinct(lit, n - 1);
    }
  }

  /** Evaluating a dict literal gives each key once. */
  lemma FromLiteralDistinct<V>(lit: seq<(string, V)>, n: nat)
    requires n <= |lit|
    ensures DistinctKeys(FromLiteral(lit, n))
  {
    var d := FromLiteral(lit, n);
    FromLiteralKeys(lit, n);
    FirstKeysDistinct(lit, n);
    forall i, j | 0 <= i < j < |d| ensures d[i].0 != d[j].0 {
      assert Keys(d)[i] == d[i].0 && Keys(d)[j] == d[j].0;
    }
  }

  /** A property every value of a literal has, every value of the evaluated dict has. */
  lemma {:induction false} FromLiteralValues<V>(lit: seq<(string, V)>, n: nat, P: V -> bool)
    requires n <= |lit|
    requires forall j | 0 <= j < n :: P(lit[j].1)
    ensures forall i | 0 <= i < |FromLiteral(lit, n)| :: P(FromLiteral(lit, n)[i].1)
  {
    if n > 0 {
      FromLiteralValues(lit, n - 1, P);
    }
  }

  /** The first pair of a literal fixes the key at the front of the dict. */
  lemma {:induction false} FromLiteralFirst<V>(lit: seq<(string, V)>, n: nat)
    requires 1 <= n <= |lit|
    ensures |FromLiteral(lit, n)| >= 1 && FromLiteral(lit, n)[0].0 == lit[0].0
  {
    if n > 1 {
      FromLiteralFirst(lit, n - 1);
      var d := FromLiteral(lit, n - 1);
      if HasKey(d, lit[n - 1].0) {
        var i := IndexOf(d, lit[n - 1].0);
        assert i == 0 ==> d[0].0 == lit[n - 1].0;
      }
    }
  }

  /** With distinct keys, the pair at position `i` is the one `Get` finds for its key. */
  lemma GetAt<V>(d: Dict<V>, i: nat)
    requires DistinctKeys(d) && i < |d|
    ensures Get(d, d[i].0) == Some(d[i].1)
  {
    assert HasKey(d, d[i].0);
  }

  function Values<V>(d: Dict<V>): (vs: seq<V>)
    ensures |vs| == |d|
    ensures forall i | 0 <= i < |d| :: vs[i] == d[i].1
  {
    seq(|d|, i requires 0 <= i < |d| => d[i].1)
  }

  /** With distinct keys, assigning the key at position `j` replaces that pair. */
  lemma SetAt<V>(d: Dict<V>, j: nat, v: V)
    requires DistinctKeys(d) && j < |d|
    ensures Set(d, d[j].0, v) == d[j := (d[j].0, v)]
  {
    assert HasKey(d, d[j].0);
    var i := IndexOf(d, d[j].0);
    assert i == j;
  }

  /** `d.update(e)`: the pairs of `e` assigned in turn, left to right. */
  function Update<V>(d: Dict<V>, e: Dict<V>): Dict<V>
  {
    if e == [] then d else Set(Update(d, e[..|e| - 1]), e[|e| - 1].0, e[|e| - 1].1)
  }

  /** After `d.update(e)` with distinct keys in `e`, a key of `e` has its value there and every other key keeps its value in `d`. */
  lemma {:induction false} UpdateGet<V>(d: Dict<V>, e: Dict<V>, q: string)
    requires DistinctKeys(e)
    ensures Get(Update(d, e), q) == if HasKey(e, q) then Get(e, q) else Get(d, q)
  {
    if e != [] {
      var n := |e| - 1;
      var p := e[..n];
      UpdateGet(d, p, q);
      SetGet(Update(d, p), e[n].0, e[n].1, q);
      if q == e[n].0 {
        GetAt(e, n);
      } else if HasKey(e, q) {
        var i :| 0 <= i < |e| && e[i].0 == q;
        assert p[i] == e[i];
        GetAt(e, i);
        GetAt(p, i);
      } else {
        assert !HasKey(p, q) by {
          forall i | 0 <= i < |p| ensures p[i].0 != q {
            assert p[i] == e[i];
          }
        }
      }
    }
  }

  /** When no key of `e` is in `d` and the keys of `e` are distinct, `d.update(e)` appends the keys of `e` in order. */
  lemma {:induction false} UpdateKeys<V>(d: Dict<V>, e: Dict<V>)
    requires DistinctKeys(e)
    requires forall i | 0 <= i < |e| :: !HasKey(d, e[i].0)
    ensures Keys(Update(d, e)) == Keys(d) + Keys(e)
  {
    if e != [] {
      var n := |e| - 1;
      var p := e[..n];
      assert forall i | 0 <= i < |p| :: p[i] == e[i];
      UpdateKeys(d, p);
      UpdateFresh(d, p, e[n].0);
      var u := Update(d, p);
      SetGet(u, e[n].0, e[n].1, e[n].0);
      KeysSnoc(e);
    }
  }

  /** A key in neither `d` nor `e` is not in `d.update(e)`. */
  lemma UpdateFresh<V>(d: Dict<V>, e: Dict<V>, k: string)
    requires DistinctKeys(e) && !HasKey(d, k)
    requires forall i | 0 <= i < |e| :: e[i].0 != k
    ensures !HasKey(Update(d, e), k)
  {
    UpdateGet(d, e, k);
  }

  lemma KeysSnoc<V>(e: Dict<V>)
    requires e != []
    ensures Keys(e) == Keys(e[..|e| - 1]) + [e[|e| - 1].0]
  {
  }

  /** Over distinct keys, a key at position `i` is found with the value there, and a key that is not listed is absent. */
  lemma FromKeysGet<V>(d: Dict<V>, k: string)
    requires DistinctKeys(d)
    ensures forall i | 0 <= i < |d| && d[i].0 == k :: Get(d, k) == Some(d[i].1)
    ensures k !in Keys(d) ==> Get(d, k) == None
  {
    forall i | 0 <= i < |d| && d[i].0 == k ensures Get(d, k) == Some(d[i].1) {
      GetAt(d, i);
    }
    HasKeyIff(d, k);
  }

  /** Updating with distinct keys that are all new: the keys are appended, and each key reads from the side that has it. */
  lemma UpdateDisjoint<V>(d: Dict<V>, e: Dict<V>)
    requires DistinctKeys(e)
    requires forall k | k in Keys(e) :: k !in Keys(d)
    ensures Keys(Update(d, e)) == Keys(d) + Keys(e)
    ensures forall q | q in Keys(e) :: Get(Update(d, e), q) == Get(e, q)
    ensures forall q | q !in Keys(e) :: Get(Update(d, e), q) == Get(d, q)
  {
    forall i | 0 <= i < |e| ensures !HasKey(d, e[i].0) {
      assert e[i].0 in Keys(e);
      HasKeyIff(d, e[i].0);
    }
    UpdateKeys(d, e);
    forall q ensures Get(Update(d, e), q) == if q in Keys(e) then Get(e, q) else Get(d, q) {
      UpdateGet(d, e, q);
      HasKeyIff(e, q);
    }
  }
}
