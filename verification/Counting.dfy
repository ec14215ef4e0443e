/** How many keys of a map hold a given sender, and how that changes when a key comes or goes. */
module Counting {
  ghost function Holders<K(!new)>(m: map<K, nat>, x: nat): nat {
    |set k | k in m && m[k] == x|
  }

  lemma HoldersRemove<K(!new)>(m: map<K, nat>, k: K, x: nat)
    requires k in m
    ensures Holders(m, x) == Holders(m - {k}, x) + (if m[k] == x then 1 else 0)
  {
    var before := set j | j in m && m[j] == x;
    var after := set j | j in m - {k} && (m - {k})[j] == x;
    assert before == after + (if m[k] == x then {k} else {});
  }

  lemma HoldersInsert<K(!new)>(m: map<K, nat>, k: K, v: nat, x: nat)
    requires k !in m
    ensures Holders(m[k := v], x) == Holders(m, x) + (if v == x then 1 else 0)
  {
    HoldersRemove(m[k := v], k, x);
    assert m[k := v] - {k} == m;
  }

  lemma HoldersOverwrite<K(!new)>(m: map<K, nat>, k: K, v: nat, x: nat)
    requires k in m
    ensures Holders(m[k := v], x) + (if m[k] == x then 1 else 0)
            == Holders(m, x) + (if v == x then 1 else 0)
  {
    HoldersRemove(m, k, x);
    HoldersRemove(m[k := v], k, x);
    assert m[k := v] - {k} == m - {k};
  }

  lemma HoldersEmpty<K(!new)>(m: map<K, nat>, x: nat)
    ensures Holders(m, x) == 0 <==> x !in m.Values
  {
    var holders := set k | k in m && m[k] == x;
    if x in m.Values {
      var k :| k in m && m[k] == x;
      assert k in holders;
    } else {
      assert holders == {};
    }
  }
}
