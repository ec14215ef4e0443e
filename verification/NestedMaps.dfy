/**
 Two- and three-level hash maps without empty inner maps, and the flat maps they stand for
 (src/rust/socket/listener.rs keeps the joins, the joined channels and the replies this way).
 */
module NestedMaps {
  import opened Wrappers

  type Nested<T, R, V> = map<T, map<R, V>>

  type Nested3<T, J, R, V> = map<T, map<J, map<R, V>>>

  ghost function Flat<T, R, V>(m: Nested<T, R, V>): map<(T, R), V> {
    map t, r | t in m && r in m[t] :: (t, r) := m[t][r]
  }

  ghost function Flat3<T, J, R, V>(m: Nested3<T, J, R, V>): map<(T, J, R), V> {
    map t, j, r | t in m && j in m[t] && r in m[t][j] :: (t, j, r) := m[t][j][r]
  }

  ghost predicate NoEmpty<T(!new), R, V>(m: Nested<T, R, V>) {
    forall t | t in m :: m[t] != map[]
  }

  ghost predicate NoEmpty3<T(!new), J(!new), R, V>(m: Nested3<T, J, R, V>) {
    forall t | t in m :: m[t] != map[] && NoEmpty(m[t])
  }

  /** What `entry(t).or_default().insert(r, v)` leaves behind. */
  function Insert<T, R, V>(m: Nested<T, R, V>, t: T, r: R, v: V): Nested<T, R, V> {
    m[t := (if t in m then m[t] else map[])[r := v]]
  }

  function Insert3<T, J, R, V>(m: Nested3<T, J, R, V>, t: T, j: J, r: R, v: V): Nested3<T, J, R, V> {
    m[t := Insert(if t in m then m[t] else map[], j, r, v)]
  }

  lemma FlatHas<T(!new), R(!new), V>(m: Nested<T, R, V>, key: (T, R))
    ensures key in Flat(m) <==> key.0 in m && key.1 in m[key.0]
    ensures key in Flat(m) ==> Flat(m)[key] == m[key.0][key.1]
  {
    assert key == (key.0, key.1);
  }

  lemma Flat3Has<T(!new), J(!new), R(!new), V>(m: Nested3<T, J, R, V>, key: (T, J, R))
    ensures key in Flat3(m) <==> key.0 in m && key.1 in m[key.0] && key.2 in m[key.0][key.1]
    ensures key in Flat3(m) ==> Flat3(m)[key] == m[key.0][key.1][key.2]
  {
    assert key == (key.0, key.1, key.2);
  }

  lemma EmptyIsFlat<T(!new), R(!new), V>()
    ensures Flat<T, R, V>(map[]) == map[]
  {
  }

  lemma Empty3IsFlat<T(!new), J(!new), R(!new), V>()
    ensures Flat3<T, J, R, V>(map[]) == map[]
  {
  }

  lemma InsertIsFlat<T(!new), R(!new), V>(m: Nested<T, R, V>, t: T, r: R, v: V)
    ensures Flat(Insert(m, t, r, v)) == Flat(m)[(t, r) := v]
    ensures NoEmpty(m) ==> NoEmpty(Insert(m, t, r, v))
  {
    hide Flat;
    var after := Insert(m, t, r, v);
    assert r in after[t];
    forall key: (T, R)
      ensures key in Flat(after) <==> key in Flat(m)[(t, r) := v]
      ensures key in Flat(after) ==> Flat(after)[key] == Flat(m)[(t, r) := v][key]
    {
      FlatHas(m, key);
      FlatHas(after, key);
    }
  }

  lemma Insert3IsFlat<T(!new), J(!new), R(!new), V>(m: Nested3<T, J, R, V>, t: T, j: J, r: R, v: V)
    ensures Flat3(Insert3(m, t, j, r, v)) == Flat3(m)[(t, j, r) := v]
    ensures NoEmpty3(m) ==> NoEmpty3(Insert3(m, t, j, r, v))
  {
    hide Flat3;
    var after := Insert3(m, t, j, r, v);
    assert r in after[t][j];
    assert j in after[t];
    forall key: (T, J, R)
      ensures key in Flat3(after) <==> key in Flat3(m)[(t, j, r) := v]
      ensures key in Flat3(after) ==> Flat3(after)[key] == Flat3(m)[(t, j, r) := v][key]
    {
      Flat3Has(m, key);
      Flat3Has(after, key);
    }
  }

  /** Taking one value out leaves the flat map without it, even where an emptied inner map stays. */
  lemma TakingIsFlat<T(!new), R(!new), V>(m: Nested<T, R, V>, t: T, r: R)
    requires t in m && r in m[t]
    ensures Flat(m[t := m[t] - {r}]) == Flat(m) - {(t, r)}
  {
    hide Flat;
    var after := m[t := m[t] - {r}];
    forall key: (T, R)
      ensures key in Flat(after) <==> key in Flat(m) && key != (t, r)
      ensures key in Flat(after) ==> Flat(after)[key] == Flat(m)[key]
    {
      assert key == (key.0, key.1);
      FlatHas(m, key);
      FlatHas(after, key);
    }
  }

  lemma EmptyInnerIsFlat<T(!new), R(!new), V>(m: Nested<T, R, V>, t: T)
    requires t !in m
    ensures Flat(m[t := map[]]) == Flat(m)
  {
    hide Flat;
    forall key: (T, R)
      ensures key in Flat(m[t := map[]]) <==> key in Flat(m)
      ensures key in Flat(m) ==> Flat(m[t := map[]])[key] == Flat(m)[key]
    {
      FlatHas(m, key);
      FlatHas(m[t := map[]], key);
    }
  }

  lemma Taking3IsFlat<T(!new), J(!new), R(!new), V>(m: Nested3<T, J, R, V>, t: T, j: J, r: R)
    requires t in m && j in m[t] && r in m[t][j]
    ensures Flat3(m[t := m[t][j := m[t][j] - {r}]]) == Flat3(m) - {(t, j, r)}
  {
    hide Flat3;
    var after := m[t := m[t][j := m[t][j] - {r}]];
    forall key: (T, J, R)
      ensures key in Flat3(after) <==> key in Flat3(m) && key != (t, j, r)
      ensures key in Flat3(after) ==> Flat3(after)[key] == Flat3(m)[key]
    {
      assert key == (key.0, key.1, key.2);
      Flat3Has(m, key);
      Flat3Has(after, key);
    }
  }

  lemma EmptyInner3IsFlat<T(!new), J(!new), R(!new), V>(m: Nested3<T, J, R, V>, t: T, j: J)
    ensures t !in m ==> Flat3(m[t := map[]]) == Flat3(m)
    ensures t in m && j !in m[t] ==> Flat3(m[t := m[t][j := map[]]]) == Flat3(m)
  {
    hide Flat3;
    var after := if t in m then m[t := m[t][j := map[]]] else m[t := map[]];
    if t in m ==> j !in m[t] {
      forall key: (T, J, R)
        ensures key in Flat3(after) <==> key in Flat3(m)
        ensures key in Flat3(m) ==> Flat3(after)[key] == Flat3(m)[key]
      {
        Flat3Has(m, key);
        Flat3Has(after, key);
      }
    }
  }

  /** Without empty inner maps the nesting says nothing more than the flat map does. */
  lemma FlatDeterminesNested<T(!new), R(!new), V>(a: Nested<T, R, V>, b: Nested<T, R, V>)
    requires NoEmpty(a) && NoEmpty(b)
    ensures Flat(a) == Flat(b) <==> a == b
  {
    hide Flat;
    if Flat(a) == Flat(b) {
      forall t, r
        ensures (t in a && r in a[t]) <==> (t in b && r in b[t])
        ensures t in a && r in a[t] && t in b ==> a[t][r] == b[t][r]
      {
        FlatHas(a, (t, r));
        FlatHas(b, (t, r));
      }
      SameInner(a, b);
    }
  }

  lemma Flat3DeterminesNested<T(!new), J(!new), R(!new), V>(a: Nested3<T, J, R, V>, b: Nested3<T, J, R, V>)
    requires NoEmpty3(a) && NoEmpty3(b)
    ensures Flat3(a) == Flat3(b) <==> a == b
  {
    hide Flat3, NoEmpty3, NoEmpty;
    if Flat3(a) == Flat3(b) {
      forall t ensures t in a ==> t in b && a[t] == b[t] {
        if t in a {
          SameAt(a, b, t);
        }
      }
      forall t ensures t in b ==> t in a {
        if t in b {
          SameAt(b, a, t);
        }
      }
    }
  }

  lemma SameAt<T(!new), J(!new), R(!new), V>(a: Nested3<T, J, R, V>, b: Nested3<T, J, R, V>, t: T)
    requires NoEmpty3(a) && NoEmpty3(b) && Flat3(a) == Flat3(b) && t in a
    ensures t in b && a[t] == b[t]
  {
    hide Flat3;
    var j :| j in a[t];
    var r :| r in a[t][j];
    Flat3Has(a, (t, j, r));
    Flat3Has(b, (t, j, r));
    forall j, r
      ensures (j in a[t] && r in a[t][j]) <==> (j in b[t] && r in b[t][j])
      ensures j in a[t] && r in a[t][j] && j in b[t] ==> a[t][j][r] == b[t][j][r]
    {
      Flat3Has(a, (t, j, r));
      Flat3Has(b, (t, j, r));
    }
    SameInner(a[t], b[t]);
  }

  lemma SameInner<J(!new), R(!new), V>(a: Nested<J, R, V>, b: Nested<J, R, V>)
    requires NoEmpty(a) && NoEmpty(b)
    requires forall j, r :: (j in a && r in a[j]) <==> (j in b && r in b[j])
    requires forall j, r | j in a && r in a[j] && j in b :: a[j][r] == b[j][r]
    ensures a == b
  {
    assert forall j | j in a :: exists r :: r in a[j];
    assert forall j | j in b :: exists r :: r in b[j];
    assert forall j | j in a && j in b :: a[j] == b[j];
  }

  /** Removes one value, and the inner map with it when that is left empty. */
  method RemoveByReferenceByTopic<T(==,!new), R(==,!new), V>(m: Nested<T, R, V>, topic: T, reference: R)
    returns (value: Option<V>, rest: Nested<T, R, V>)
    requires NoEmpty(m)
    ensures NoEmpty(rest) && Flat(rest) == Flat(m) - {(topic, reference)}
    ensures value == if (topic, reference) in Flat(m) then Some(Flat(m)[(topic, reference)]) else None
  {
    hide Flat;
    value, rest := None, m;
    if topic in m {
      var valueByReference := m[topic];
      if reference in valueByReference {
        value := Some(valueByReference[reference]);
        valueByReference := valueByReference - {reference};
        assert forall r :: r in valueByReference <==> r in m[topic] && r != reference;
        rest := m[topic := valueByReference];
        if valueByReference == map[] {
          rest := rest - {topic};
        }
      }
    }
    FlatHas(m, (topic, reference));
    forall key: (T, R)
      ensures key in Flat(rest) <==> key in Flat(m) && key != (topic, reference)
      ensures key in Flat(rest) ==> Flat(rest)[key] == Flat(m)[key]
    {
      assert key == (key.0, key.1);
      FlatHas(m, key);
      FlatHas(rest, key);
    }
  }

  /** Removes one value three levels down, and each map above it that this leaves empty. */
  method RemoveReplyTx<T(==,!new), J(==,!new), R(==,!new), V>(
      m: Nested3<T, J, R, V>, topic: T, joinReference: J, reference: R)
    returns (value: Option<V>, rest: Nested3<T, J, R, V>)
    requires NoEmpty3(m)
    ensures NoEmpty3(rest) && Flat3(rest) == Flat3(m) - {(topic, joinReference, reference)}
    ensures value == if (topic, joinReference, reference) in Flat3(m)
                     then Some(Flat3(m)[(topic, joinReference, reference)]) else None
  {
    hide Flat3;
    value, rest := None, m;
    Flat3Has(m, (topic, joinReference, reference));
    if topic !in m || joinReference !in m[topic] || reference !in m[topic][joinReference] {
      assert Flat3(m) - {(topic, joinReference, reference)} == Flat3(m);
      return;
    }
    var byJoinReference := m[topic];
    var byReference := byJoinReference[joinReference];
    value := Some(byReference[reference]);
    byReference := byReference - {reference};
    assert forall r :: r in byReference <==> r in m[topic][joinReference] && r != reference;
    byJoinReference := byJoinReference[joinReference := byReference];
    rest := m[topic := byJoinReference];
    if byReference == map[] {
      byJoinReference := byJoinReference - {joinReference};
      assert forall j :: j in byJoinReference <==> j in m[topic] && j != joinReference;
      rest := m[topic := byJoinReference];
      if byJoinReference == map[] {
        rest := rest - {topic};
      }
    }
    forall key: (T, J, R)
      ensures key in Flat3(rest) <==> key in Flat3(m) && key != (topic, joinReference, reference)
      ensures key in Flat3(rest) ==> Flat3(rest)[key] == Flat3(m)[key]
    {
      assert key == (key.0, key.1, key.2);
      Flat3Has(m, key);
      Flat3Has(rest, key);
    }
  }
}
