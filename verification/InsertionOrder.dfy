/** A JavaScript `Map`: a table that iterates its keys in the order they were first inserted. */
module InsertionOrder {

  datatype Table<K(==), V> = Table(order: seq<K>, at: map<K, V>)

  function Empty<K, V>(): Table<K, V> {
    Table([], map[])
  }

  ghost predicate Distinct<K>(s: seq<K>) {
    forall i, j :: 0 <= i < j < |s| ==> s[i] != s[j]
  }

  ghost predicate Valid<K(!new), V>(m: Table<K, V>) {
    && Distinct(m.order)
    && (forall k :: k in m.order <==> k in m.at)
  }

  function Without<K(==)>(s: seq<K>, k: K): seq<K> {
    if s == [] then [] else if s[0] == k then s[1..] else [s[0]] + Without(s[1..], k)
  }

  /** Setting a key that is there keeps its place. */
  function Set<K, V>(m: Table<K, V>, k: K, v: V): Table<K, V> {
    Table(if k in m.at then m.order else m.order + [k], m.at[k := v])
  }

  function Delete<K, V>(m: Table<K, V>, k: K): Table<K, V> {
    if k in m.at then Table(Without(m.order, k), m.at - {k}) else m
  }

  /** The oldest keys are deleted while there are more than `max`. */
  function Trim<K, V>(m: Table<K, V>, max: nat): Table<K, V>
    decreases |m.order|
  {
    if |m.order| <= max then m else Trim(Table(m.order[1..], m.at - {m.order[0]}), max)
  }

  lemma {:induction false} WithoutKeepsOthers<K(!new)>(s: seq<K>, k: K)
    requires Distinct(s)
    ensures forall x :: x in Without(s, k) <==> x in s && x != k
    ensures Distinct(Without(s, k))
    ensures |Without(s, k)| == if k in s then |s| - 1 else |s|
  {
    if s != [] {
      assert s == [s[0]] + s[1..];
      if s[0] == k {
        assert k !in s[1..];
      } else {
        WithoutKeepsOthers(s[1..], k);
        assert s[0] !in s[1..];
        assert forall x :: x in Without(s, k) <==> x == s[0] || x in Without(s[1..], k);
      }
    }
  }

  lemma SetIsValid<K(!new), V>(m: Table<K, V>, k: K, v: V)
    requires Valid(m)
    ensures Valid(Set(m, k, v))
  {
  }

  lemma DeleteIsValid<K(!new), V>(m: Table<K, V>, k: K)
    requires Valid(m)
    ensures Valid(Delete(m, k))
  {
    WithoutKeepsOthers(m.order, k);
  }

  /** Deleting the first key is dropping it. */
  lemma DeleteFirst<K(!new), V>(m: Table<K, V>)
    requires Valid(m) && m.order != []
    ensures m.order[0] in m.at
    ensures Delete(m, m.order[0]) == Table(m.order[1..], m.at - {m.order[0]})
    ensures Valid(Delete(m, m.order[0]))
  {
    assert m.order[0] in m.order;
    DeleteIsValid(m, m.order[0]);
  }

  /** Trimming keeps exactly the newest `max` keys, with their values. */
  lemma {:induction false} TrimKeepsNewest<K(!new), V>(m: Table<K, V>, max: nat)
    requires Valid(m)
    ensures Valid(Trim(m, max))
    ensures Trim(m, max).order == if |m.order| <= max then m.order else m.order[|m.order| - max..]
    ensures forall k :: k in Trim(m, max).at ==> k in m.at && Trim(m, max).at[k] == m.at[k]
    decreases |m.order|
  {
    if |m.order| > max {
      DeleteFirst(m);
      TrimKeepsNewest(Delete(m, m.order[0]), max);
    }
  }
}
