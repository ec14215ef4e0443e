/**
 Theorems about presence tracking: the event log replays to the new map, a snapshot is reached, a repeated
 snapshot is silent, and replicas converge (src/rust/presences/listener.rs).
 */
module PresenceTheorems {
  import opened Wrappers
  import opened Messages
  import opened Presences

  // ---------------------------------------------------------------------------------- metas

  lemma {:induction false} WithoutContents(metas: seq<Meta>, references: set<Text>, m: Meta)
    ensures m in Without(metas, references) <==> m in metas && m.joinReference !in references
  {
    if |metas| == 0 {
    } else {
      WithoutContents(metas[..|metas| - 1], references, m);
      assert metas == metas[..|metas| - 1] + [metas[|metas| - 1]];
    }
  }

  lemma WithoutReferences(metas: seq<Meta>, references: set<Text>)
    ensures JoinReferences(Without(metas, references)) == JoinReferences(metas) - references
    ensures Without(metas, references) == [] <==> JoinReferences(metas) <= references
  {
    forall m: Meta ensures m in Without(metas, references) <==> m in metas && m.joinReference !in references {
      WithoutContents(metas, references, m);
    }
    var rest := Without(metas, references);
    assert forall r :: r in JoinReferences(rest) <==> r in JoinReferences(metas) && r !in references;
    if rest != [] {
      assert rest[0].joinReference in JoinReferences(metas);
    } else {
      forall r | r in JoinReferences(metas) ensures r in references {
        var m :| m in metas && m.joinReference == r;
        assert m !in rest;
      }
    }
  }

  lemma {:induction false} WithoutNothing(metas: seq<Meta>, references: set<Text>)
    requires JoinReferences(metas) !! references
    ensures Without(metas, references) == metas
  {
    if |metas| == 0 {
    } else {
      var last := |metas| - 1;
      assert metas[last].joinReference in JoinReferences(metas);
      assert JoinReferences(metas[..last]) <= JoinReferences(metas);
      WithoutNothing(metas[..last], references);
    }
  }

  lemma ReferencesOfSum(a: seq<Meta>, b: seq<Meta>)
    ensures JoinReferences(a + b) == JoinReferences(a) + JoinReferences(b)
  {
    assert forall m :: m in a + b <==> m in a || m in b;
  }

  // ---------------------------------------------------------------------------------- meta by meta

  /** What the joins of a diff store and announce for a key, meta by meta. */
  lemma JoinedMetas(m: PresenceByKey, joins: PresenceByKey, key: Text) returns (picks: seq<nat>)
    requires key in joins
    ensures key in AfterJoins(m, joins)
    ensures Joins(AfterJoins(m, joins)[key].metas, MetasAt(m, key), joins[key].metas, picks)
    ensures var event := JoinEvent(m, joins, key);
            && event.key == key && event.joined == AfterJoins(m, joins)[key]
            && (event.current.Some? <==> key in m) && (key in m ==> event.current.value == m[key])
  {
    hide Joins;
    picks := MergeJoins(Get(m, key), joins[key]);
  }

  /** What the leaves of a diff store and announce for a key, meta by meta; a key without metas goes. */
  lemma LeftMetas(m: PresenceByKey, leaves: PresenceByKey, key: Text) returns (picks: seq<nat>)
    requires key in leaves && key in m
    ensures var event := LeaveEvent(m, leaves, key);
            && event.key == key && event.left == leaves[key]
            && Keeps(event.current.metas, m[key].metas, leaves[key].metas, picks)
            && (key in AfterLeaves(m, leaves) <==> event.current.metas != [])
            && (key in AfterLeaves(m, leaves) ==> AfterLeaves(m, leaves)[key] == event.current)
  {
    picks := WithoutKeeps(m[key].metas, leaves[key].metas);
  }

  /** A diff leaves exactly these metas: a reference that was joined and not left carries the joined meta, any other
      that was not left carries the old one. */
  lemma DiffedMetas(m: PresenceByKey, joins: PresenceByKey, leaves: PresenceByKey, key: Text, meta: Meta)
    ensures key in DiffResult(m, joins, leaves) && meta in DiffResult(m, joins, leaves)[key].metas
            <==> InDiff(m, joins, leaves, key, meta)
  {
    hide Without, HasReference, JoinReferences;
    var middle := AfterJoins(m, joins);
    ReferenceIsListed(MetasAt(joins, key), meta.joinReference);
    ReferenceIsListed(MetasAt(leaves, key), meta.joinReference);
    if key in m && key in joins {
      WithoutContents(m[key].metas, JoinReferences(joins[key].metas), meta);
    }
    assert meta in MetasAt(middle, key)
      <==> meta in MetasAt(joins, key)
           || (meta in MetasAt(m, key) && !HasReference(MetasAt(joins, key), meta.joinReference)) by {
      NoReferences(meta.joinReference);
    }
    if key in middle && key in leaves {
      WithoutContents(middle[key].metas, JoinReferences(leaves[key].metas), meta);
    }
    NoReferences(meta.joinReference);
  }

  /** Which keys a diff leaves: a key goes only when a leave takes its last meta, and one that the diff does not name
      keeps its metas. */
  lemma DiffedKeys(m: PresenceByKey, joins: PresenceByKey, leaves: PresenceByKey, key: Text)
    ensures key in DiffResult(m, joins, leaves)
            <==> (key in m || key in joins) && (key in leaves ==> exists meta :: InDiff(m, joins, leaves, key, meta))
    ensures key !in joins && key !in leaves && key in m ==>
              key in DiffResult(m, joins, leaves) && DiffResult(m, joins, leaves)[key] == m[key]
  {
    hide InDiff, Without;
    forall meta ensures key in DiffResult(m, joins, leaves) && meta in DiffResult(m, joins, leaves)[key].metas
                        <==> InDiff(m, joins, leaves, key, meta)
    {
      DiffedMetas(m, joins, leaves, key, meta);
    }
    if key in leaves && key in DiffResult(m, joins, leaves) {
      var metas := DiffResult(m, joins, leaves)[key].metas;
      assert metas[0] in metas;
    }
  }

  lemma NoReferences(reference: Text)
    ensures !HasReference([], reference)
  {
  }

  // ---------------------------------------------------------------------------------- replay

  ghost function ReplayJoins(m: PresenceByKey, events: seq<Join>): PresenceByKey {
    if |events| == 0 then m
    else
      var last := events[|events| - 1];
      ReplayJoins(m, events[..|events| - 1])[last.key := last.joined]
  }

  ghost function ReplayLeaves(m: PresenceByKey, events: seq<Leave>): PresenceByKey {
    if |events| == 0 then m
    else
      var last := events[|events| - 1];
      var before := ReplayLeaves(m, events[..|events| - 1]);
      if last.current.metas == [] then before - {last.key} else before[last.key := last.current]
  }

  lemma {:induction false} ReplayedJoin(m: PresenceByKey, events: seq<Join>, k: Text)
    requires forall i, j | 0 <= i < j < |events| :: events[i].key != events[j].key
    ensures forall i | 0 <= i < |events| && events[i].key == k ::
              Get(ReplayJoins(m, events), k) == Some(events[i].joined)
    ensures (forall i | 0 <= i < |events| :: events[i].key != k) ==> Get(ReplayJoins(m, events), k) == Get(m, k)
  {
    if |events| == 0 {
    } else {
      ReplayedJoin(m, events[..|events| - 1], k);
    }
  }

  lemma {:induction false} ReplayedLeave(m: PresenceByKey, events: seq<Leave>, k: Text)
    requires forall i, j | 0 <= i < j < |events| :: events[i].key != events[j].key
    ensures forall i | 0 <= i < |events| && events[i].key == k ::
              Get(ReplayLeaves(m, events), k)
              == if events[i].current.metas == [] then None else Some(events[i].current)
    ensures (forall i | 0 <= i < |events| :: events[i].key != k) ==> Get(ReplayLeaves(m, events), k) == Get(m, k)
  {
    if |events| == 0 {
    } else {
      ReplayedLeave(m, events[..|events| - 1], k);
    }
  }

  /**
   Replaying the events of a diff, the Joins and then the Leaves, in whatever order they were sent, turns the
   old map into exactly the new one.
   */
  lemma EventsReplay(m: PresenceByKey, joins: PresenceByKey, leaves: PresenceByKey,
                     joinEvents: seq<Join>, leaveEvents: seq<Leave>)
    requires LogsJoins(joinEvents, m, joins)
    requires LogsLeaves(leaveEvents, AfterJoins(m, joins), leaves)
    ensures ReplayLeaves(ReplayJoins(m, joinEvents), leaveEvents) == DiffResult(m, joins, leaves)
  {
    forall k ensures Get(ReplayJoins(m, joinEvents), k) == Get(AfterJoins(m, joins), k) {
      ReplayedJoin(m, joinEvents, k);
      if k in joins {
        var i :| 0 <= i < |joinEvents| && joinEvents[i].key == k;
      }
    }
    var middle := AfterJoins(m, joins);
    SameMap(ReplayJoins(m, joinEvents), middle);
    forall k ensures Get(ReplayLeaves(middle, leaveEvents), k) == Get(AfterLeaves(middle, leaves), k) {
      ReplayedLeave(middle, leaveEvents, k);
      if k in leaves && k in middle {
        var i :| 0 <= i < |leaveEvents| && leaveEvents[i].key == k;
      }
    }
    SameMap(ReplayLeaves(middle, leaveEvents), AfterLeaves(middle, leaves));
  }

  /** Replaying the events of a snapshot over the part of the old map whose keys the snapshot still has gives exactly
      the new map: the keys that are wholly gone leave without an event. */
  lemma SnapshotEventsReplay(prior: PresenceByKey, snapshot: PresenceByKey,
                             joinEvents: seq<Join>, leaveEvents: seq<Leave>)
    requires LogsJoins(joinEvents, Kept(prior, snapshot), SnapshotJoins(prior, snapshot))
    requires LogsLeaves(leaveEvents, AfterJoins(Kept(prior, snapshot), SnapshotJoins(prior, snapshot)),
                        SnapshotLeaves(prior, snapshot))
    ensures ReplayLeaves(ReplayJoins(Kept(prior, snapshot), joinEvents), leaveEvents) == SyncResult(prior, snapshot)
  {
    EventsReplay(Kept(prior, snapshot), SnapshotJoins(prior, snapshot), SnapshotLeaves(prior, snapshot),
                 joinEvents, leaveEvents);
  }

  // ---------------------------------------------------------------------------------- uniqueness

  ghost predicate UniqueMetas(metas: seq<Meta>) {
    forall i, j | 0 <= i < j < |metas| :: metas[i].joinReference != metas[j].joinReference
  }

  ghost predicate UniqueReferences(m: PresenceByKey) {
    forall k | k in m :: UniqueMetas(m[k].metas)
  }

  lemma {:induction false} WithoutKeepsUnique(metas: seq<Meta>, references: set<Text>)
    requires UniqueMetas(metas)
    ensures UniqueMetas(Without(metas, references))
  {
    if |metas| == 0 {
    } else {
      var last := |metas| - 1;
      WithoutKeepsUnique(metas[..last], references);
      var rest := Without(metas[..last], references);
      forall i | 0 <= i < |rest| ensures rest[i].joinReference != metas[last].joinReference {
        WithoutContents(metas[..last], references, rest[i]);
      }
    }
  }

  lemma MergeKeepsUnique(current: Option<Presence>, joined: Presence)
    requires UniqueMetas(joined.metas) && (current.Some? ==> UniqueMetas(current.value.metas))
    ensures UniqueMetas(Merge(current, joined).metas)
  {
    if current.Some? {
      var references := JoinReferences(joined.metas);
      var rest := Without(current.value.metas, references);
      WithoutKeepsUnique(current.value.metas, references);
      forall i | 0 <= i < |rest| ensures rest[i].joinReference !in references {
        WithoutContents(current.value.metas, references, rest[i]);
      }
      assert forall i | 0 <= i < |joined.metas| :: joined.metas[i].joinReference in references;
    }
  }

  /** A diff never makes a reference appear twice under a key. */
  lemma DiffKeepsUniqueReferences(m: PresenceByKey, joins: PresenceByKey, leaves: PresenceByKey)
    requires UniqueReferences(m) && UniqueReferences(joins)
    ensures UniqueReferences(DiffResult(m, joins, leaves))
  {
    var middle := AfterJoins(m, joins);
    forall k | k in middle ensures UniqueMetas(middle[k].metas) {
      if k in joins {
        MergeKeepsUnique(Get(m, k), joins[k]);
      }
    }
    forall k | k in AfterLeaves(middle, leaves) ensures UniqueMetas(AfterLeaves(middle, leaves)[k].metas) {
      if k in leaves {
        WithoutKeepsUnique(middle[k].metas, JoinReferences(leaves[k].metas));
      }
    }
  }

  // ---------------------------------------------------------------------------------- views

  /** All that a replica's users can agree on: the keys, and the references under each. */
  ghost function View(m: PresenceByKey): map<Text, set<Text>> {
    map k | k in m :: JoinReferences(m[k].metas)
  }

  ghost function JoinView(v: map<Text, set<Text>>, joins: map<Text, set<Text>>): map<Text, set<Text>> {
    map k | k in v.Keys + joins.Keys ::
      (if k in joins then joins[k] else {}) + (if k in v then v[k] else {})
  }

  ghost function LeaveView(v: map<Text, set<Text>>, leaves: map<Text, set<Text>>): map<Text, set<Text>> {
    map k | k in v && (k in leaves ==> v[k] - leaves[k] != {}) :: if k in leaves then v[k] - leaves[k] else v[k]
  }

  lemma EmptyMetas(metas: seq<Meta>)
    ensures metas == [] <==> JoinReferences(metas) == {}
  {
    if metas != [] {
      assert metas[0].joinReference in JoinReferences(metas);
    }
  }

  lemma JoinsActOnViews(m: PresenceByKey, joins: PresenceByKey)
    ensures View(AfterJoins(m, joins)) == JoinView(View(m), View(joins))
  {
    var left, right := View(AfterJoins(m, joins)), JoinView(View(m), View(joins));
    forall k | k in right ensures left[k] == right[k] {
      if k in m && k in joins {
        var references := JoinReferences(joins[k].metas);
        WithoutReferences(m[k].metas, references);
        ReferencesOfSum(joins[k].metas, Without(m[k].metas, references));
      }
    }
  }

  lemma LeavesActOnViews(m: PresenceByKey, leaves: PresenceByKey)
    ensures View(AfterLeaves(m, leaves)) == LeaveView(View(m), View(leaves))
  {
    forall k | k in m && k in leaves
      ensures JoinReferences(Survivors(m[k], leaves[k]).metas)
              == JoinReferences(m[k].metas) - JoinReferences(leaves[k].metas)
      ensures Survivors(m[k], leaves[k]).metas == []
              <==> JoinReferences(m[k].metas) - JoinReferences(leaves[k].metas) == {}
    {
      WithoutReferences(m[k].metas, JoinReferences(leaves[k].metas));
      EmptyMetas(Survivors(m[k], leaves[k]).metas);
    }
    hide JoinReferences, Without;
  }

  /** The effect of a diff on keys and references depends on keys and references alone: joined references
      come in, left ones go out, and a key goes when a leave takes its last reference. */
  lemma DiffActsOnViews(m: PresenceByKey, joins: PresenceByKey, leaves: PresenceByKey)
    ensures View(DiffResult(m, joins, leaves)) == LeaveView(JoinView(View(m), View(joins)), View(leaves))
  {
    JoinsActOnViews(m, joins);
    LeavesActOnViews(AfterJoins(m, joins), leaves);
  }

  // ---------------------------------------------------------------------------------- sync

  /** When the snapshot names a key without any metas, the outcome for that key hangs on what the replica
      had before; everywhere else the snapshot is reached. */
  ghost predicate Reachable(prior: PresenceByKey, snapshot: PresenceByKey) {
    forall k | k in snapshot && k in prior && snapshot[k].metas == [] :: prior[k].metas == []
  }

  /** What a snapshot leaves under one key: its unseen metas, then the surviving old ones in old order. */
  ghost function SyncedMetas(current: seq<Meta>, snapshot: seq<Meta>): seq<Meta> {
    var unseen := Without(snapshot, JoinReferences(current));
    unseen + Without(current, JoinReferences(current) - JoinReferences(snapshot))
  }

  lemma {:induction false} WithoutOnlyLooksAtOwn(metas: seq<Meta>, a: set<Text>, b: set<Text>)
    requires forall r | r in JoinReferences(metas) :: r in a <==> r in b
    ensures Without(metas, a) == Without(metas, b)
  {
    if |metas| == 0 {
    } else {
      var last := |metas| - 1;
      assert metas[last].joinReference in JoinReferences(metas);
      assert JoinReferences(metas[..last]) <= JoinReferences(metas);
      WithoutOnlyLooksAtOwn(metas[..last], a, b);
    }
  }

  lemma {:induction false} WithoutOfSum(a: seq<Meta>, b: seq<Meta>, references: set<Text>)
    ensures Without(a + b, references) == Without(a, references) + Without(b, references)
  {
    if |b| == 0 {
      assert a + b == a;
    } else {
      assert (a + b)[..|a + b| - 1] == a + b[..|b| - 1];
      WithoutOfSum(a, b[..|b| - 1], references);
    }
  }

  lemma SyncedReferences(current: seq<Meta>, snapshot: seq<Meta>)
    ensures JoinReferences(SyncedMetas(current, snapshot)) == JoinReferences(snapshot)
    ensures SyncedMetas(current, snapshot) == [] <==> snapshot == []
  {
    var c, n := JoinReferences(current), JoinReferences(snapshot);
    WithoutReferences(snapshot, c);
    WithoutReferences(current, c - n);
    ReferencesOfSum(Without(snapshot, c), Without(current, c - n));
    EmptyMetas(snapshot);
    EmptyMetas(SyncedMetas(current, snapshot));
  }

  /** Merging the unseen metas in and taking the departed ones out comes to the closed form. */
  lemma MergedThenDeparted(c: seq<Meta>, n: seq<Meta>)
    ensures var unseen, departed := Without(n, JoinReferences(c)), Without(c, JoinReferences(n));
            && unseen + Without(c, JoinReferences(unseen)) == unseen + c
            && Without(unseen + c, JoinReferences(departed)) == SyncedMetas(c, n)
            && (departed == [] ==> unseen + c == SyncedMetas(c, n))
            && (departed == [] <==> JoinReferences(c) <= JoinReferences(n))
  {
    var unseen, departed := Without(n, JoinReferences(c)), Without(c, JoinReferences(n));
    WithoutReferences(n, JoinReferences(c));
    WithoutReferences(c, JoinReferences(n));
    WithoutNothing(c, JoinReferences(unseen));
    WithoutOfSum(unseen, c, JoinReferences(departed));
    WithoutNothing(unseen, JoinReferences(departed));
    if departed == [] {
      assert JoinReferences(c) - JoinReferences(n) == {};
      WithoutNothing(c, {});
    }
    hide Without, JoinReferences;
  }

  lemma SyncOfOneKey(prior: PresenceByKey, snapshot: PresenceByKey, k: Text)
    requires k in prior && k in snapshot
    ensures var c, n := prior[k].metas, snapshot[k].metas;
            var joins, leaves := SnapshotJoins(prior, snapshot), SnapshotLeaves(prior, snapshot);
            var merged := if k in joins then Merge(Some(prior[k]), joins[k]) else prior[k];
            var after := if k in leaves then Survivors(merged, leaves[k]) else merged;
            && after.metas == SyncedMetas(c, n)
            && (k in leaves && after.metas == [] <==> n == [] && c != [])
  {
    var c, n := prior[k].metas, snapshot[k].metas;
    var unseen := Without(n, JoinReferences(c));
    MergedThenDeparted(c, n);
    SyncedReferences(c, n);
    EmptyMetas(n);
    EmptyMetas(c);
    assert unseen == [] ==> unseen + c == c;
    hide Without, JoinReferences, SyncedMetas;
  }

  lemma SyncedKey(prior: PresenceByKey, snapshot: PresenceByKey, k: Text)
    ensures var result := SyncResult(prior, snapshot);
            && (k in result <==>
                  k in snapshot && !(k in prior && snapshot[k].metas == [] && prior[k].metas != []))
            && (k in result ==>
                  result[k] == if k in prior then Presence(SyncedMetas(prior[k].metas, snapshot[k].metas))
                               else snapshot[k])
  {
    if k in prior && k in snapshot {
      SyncOfOneKey(prior, snapshot, k);
    }
    hide Without, JoinReferences, SyncedMetas;
  }

  lemma SyncActsOnViewOfKey(prior: PresenceByKey, snapshot: PresenceByKey, k: Text)
    ensures var v, n, result := View(prior), View(snapshot), SyncResult(prior, snapshot);
            && (k in result <==> k in n && !(k in v && n[k] == {} && v[k] != {}))
            && (k in result ==> JoinReferences(result[k].metas) == n[k])
  {
    SyncedKey(prior, snapshot, k);
    if k in snapshot {
      EmptyMetas(snapshot[k].metas);
      if k in prior {
        EmptyMetas(prior[k].metas);
        SyncedReferences(prior[k].metas, snapshot[k].metas);
      }
    }
    hide JoinReferences, SyncedMetas, SyncResult;
  }

  lemma SyncActsOnViews(prior: PresenceByKey, snapshot: PresenceByKey)
    ensures var v, n := View(prior), View(snapshot);
            View(SyncResult(prior, snapshot)) == map k | k in n && !(k in v && n[k] == {} && v[k] != {}) :: n[k]
  {
    hide JoinReferences, SyncResult;
    forall k
      ensures var v, n, result := View(prior), View(snapshot), SyncResult(prior, snapshot);
              && (k in result <==> k in n && !(k in v && n[k] == {} && v[k] != {}))
              && (k in result ==> JoinReferences(result[k].metas) == n[k])
    {
      SyncActsOnViewOfKey(prior, snapshot, k);
    }
  }

  /**
   A snapshot is reached: afterwards the replica has the snapshot's keys with the snapshot's references, exactly
   when no key that the snapshot names without metas was held with some. What is under a key is then the
   unseen metas of the snapshot followed by the surviving old ones.
   */
  lemma SnapshotIsReached(prior: PresenceByKey, snapshot: PresenceByKey)
    ensures View(SyncResult(prior, snapshot)) == View(snapshot) <==> Reachable(prior, snapshot)
    ensures forall k | k in SyncResult(prior, snapshot) :: k in snapshot
              && SyncResult(prior, snapshot)[k].metas
                 == if k in prior then SyncedMetas(prior[k].metas, snapshot[k].metas) else snapshot[k].metas
  {
    hide SyncResult, SyncedMetas;
    SyncActsOnViews(prior, snapshot);
    var result := SyncResult(prior, snapshot);
    forall k
      ensures k in result <==>
                k in snapshot && !(k in prior && snapshot[k].metas == [] && prior[k].metas != [])
      ensures k in result ==>
                result[k].metas
                == if k in prior then SyncedMetas(prior[k].metas, snapshot[k].metas) else snapshot[k].metas
    {
      SyncedKey(prior, snapshot, k);
      SyncActsOnViewOfKey(prior, snapshot, k);
    }
    if !Reachable(prior, snapshot) {
      var k :| k in snapshot && k in prior && snapshot[k].metas == [] && prior[k].metas != [];
      assert k in View(snapshot) && k !in View(result);
    }
  }

  lemma EqualViewsAreSilent(m: PresenceByKey, snapshot: PresenceByKey)
    requires View(m) == View(snapshot)
    ensures SnapshotJoins(m, snapshot) == map[] && SnapshotLeaves(m, snapshot) == map[]
    ensures SyncResult(m, snapshot) == m
  {
    forall k
      ensures k in m <==> k in snapshot
      ensures k in m ==> Without(snapshot[k].metas, JoinReferences(m[k].metas)) == []
      ensures k in m ==> Without(m[k].metas, JoinReferences(snapshot[k].metas)) == []
    {
      assert k in View(m) <==> k in View(snapshot);
      if k in m {
        assert JoinReferences(m[k].metas) == View(m)[k] == JoinReferences(snapshot[k].metas);
        WithoutReferences(snapshot[k].metas, JoinReferences(m[k].metas));
        WithoutReferences(m[k].metas, JoinReferences(snapshot[k].metas));
      }
    }
    hide Without, JoinReferences, View;
    assert Kept(m, snapshot) == m;
    assert SnapshotJoins(m, snapshot) == map[] && SnapshotLeaves(m, snapshot) == map[];
    assert AfterJoins(m, map[]) == m;
  }

  /** The same snapshot again changes nothing and is silent, exactly when it was reached the first time. */
  lemma RepeatedSnapshotIsSilent(prior: PresenceByKey, snapshot: PresenceByKey)
    ensures var result := SyncResult(prior, snapshot);
            Reachable(prior, snapshot)
            <==> && SnapshotJoins(result, snapshot) == map[] && SnapshotLeaves(result, snapshot) == map[]
                 && SyncResult(result, snapshot) == result
  {
    var result := SyncResult(prior, snapshot);
    SnapshotIsReached(prior, snapshot);
    if Reachable(prior, snapshot) {
      EqualViewsAreSilent(result, snapshot);
    } else {
      var k :| k in snapshot && k in prior && snapshot[k].metas == [] && prior[k].metas != [];
      SyncedKey(prior, snapshot, k);
      assert k in SnapshotJoins(result, snapshot);
    }
    hide SyncResult, JoinReferences, Without, View;
  }

  // ---------------------------------------------------------------------------------- convergence

  datatype Update = Snapshot(presences: PresenceByKey) | Diff(joins: PresenceByKey, leaves: PresenceByKey)

  function Apply(m: PresenceByKey, u: Update): PresenceByKey {
    match u
    case Snapshot(snapshot) => SyncResult(m, snapshot)
    case Diff(joins, leaves) => DiffResult(m, joins, leaves)
  }

  function ApplyAll(m: PresenceByKey, updates: seq<Update>): PresenceByKey {
    if |updates| == 0 then m
    else Apply(ApplyAll(m, updates[..|updates| - 1]), updates[|updates| - 1])
  }

  lemma ApplyActsOnViews(a: PresenceByKey, b: PresenceByKey, u: Update)
    requires View(a) == View(b)
    ensures View(Apply(a, u)) == View(Apply(b, u))
  {
    match u
    case Snapshot(snapshot) =>
      SyncActsOnViews(a, snapshot);
      SyncActsOnViews(b, snapshot);
    case Diff(joins, leaves) =>
      DiffActsOnViews(a, joins, leaves);
      DiffActsOnViews(b, joins, leaves);
  }

  lemma {:induction false} EqualViewsStayEqual(a: PresenceByKey, b: PresenceByKey, updates: seq<Update>)
    requires View(a) == View(b)
    ensures View(ApplyAll(a, updates)) == View(ApplyAll(b, updates))
  {
    if |updates| == 0 {
    } else {
      var last := |updates| - 1;
      EqualViewsStayEqual(a, b, updates[..last]);
      ApplyActsOnViews(ApplyAll(a, updates[..last]), ApplyAll(b, updates[..last]), updates[last]);
    }
  }

  /**
   Replicas converge: whatever two replicas held before, after a snapshot that both can reach and the same
   further diffs and snapshots, however many, they hold the same keys and the same references under each.
   */
  lemma ReplicasConverge(a: PresenceByKey, b: PresenceByKey, snapshot: PresenceByKey, updates: seq<Update>)
    requires Reachable(a, snapshot) && Reachable(b, snapshot)
    ensures View(ApplyAll(SyncResult(a, snapshot), updates)) == View(ApplyAll(SyncResult(b, snapshot), updates))
  {
    SnapshotIsReached(a, snapshot);
    SnapshotIsReached(b, snapshot);
    EqualViewsStayEqual(SyncResult(a, snapshot), SyncResult(b, snapshot), updates);
  }

  // ---------------------------------------------------------------------------------- partition

  lemma DepartedKeysVanish(prior: PresenceByKey, snapshot: PresenceByKey, k: Text)
    requires k in prior && k !in snapshot
    ensures var joins, leaves := SnapshotJoins(prior, snapshot), SnapshotLeaves(prior, snapshot);
            && k in leaves && k in AfterJoins(prior, joins) && k !in AfterJoins(Kept(prior, snapshot), joins)
            && LeaveEvent(AfterJoins(prior, joins), leaves, k) == Leave.Leave(k, Presence([]), prior[k])
            && k !in DiffResult(prior, joins, leaves) && k !in SyncResult(prior, snapshot)
  {
    WithoutReferences(prior[k].metas, JoinReferences(prior[k].metas));
    hide Without, JoinReferences;
  }

  lemma OtherKeysAgree(prior: PresenceByKey, snapshot: PresenceByKey, k: Text)
    requires !(k in prior && k !in snapshot)
    ensures var joins, leaves := SnapshotJoins(prior, snapshot), SnapshotLeaves(prior, snapshot);
            var kept := Kept(prior, snapshot);
            && Get(prior, k) == Get(kept, k)
            && Get(AfterJoins(prior, joins), k) == Get(AfterJoins(kept, joins), k)
            && Get(DiffResult(prior, joins, leaves), k) == Get(SyncResult(prior, snapshot), k)
            && (k in leaves && k in AfterJoins(kept, joins) ==>
                  LeaveEvent(AfterJoins(prior, joins), leaves, k) == LeaveEvent(AfterJoins(kept, joins), leaves, k))
  {
    hide Without, JoinReferences;
  }

  /**
   Dropping the keys that a snapshot no longer has before running the diff gives the same map as running the
   same diff on the whole old map. The events differ exactly by the Leaves of those keys, which the early drop
   keeps from being sent.
   */
  lemma PartitionRefinesPlainDiff(prior: PresenceByKey, snapshot: PresenceByKey)
    ensures var joins, leaves := SnapshotJoins(prior, snapshot), SnapshotLeaves(prior, snapshot);
            var kept := Kept(prior, snapshot);
            && DiffResult(prior, joins, leaves) == SyncResult(prior, snapshot)
            && (forall k | k in joins :: JoinEvent(prior, joins, k) == JoinEvent(kept, joins, k))
            && (forall k | k in leaves && k in AfterJoins(kept, joins) ::
                  && k in AfterJoins(prior, joins)
                  && LeaveEvent(AfterJoins(prior, joins), leaves, k) == LeaveEvent(AfterJoins(kept, joins), leaves, k))
            && (forall k :: k in leaves && k in AfterJoins(prior, joins) && k !in AfterJoins(kept, joins)
                            <==> k in prior && k !in snapshot)
            && (forall k | k in prior && k !in snapshot ::
                  && k in leaves && k in AfterJoins(prior, joins)
                  && LeaveEvent(AfterJoins(prior, joins), leaves, k) == Leave.Leave(k, Presence([]), prior[k]))
  {
    var joins, leaves := SnapshotJoins(prior, snapshot), SnapshotLeaves(prior, snapshot);
    var kept := Kept(prior, snapshot);
    forall k
      ensures Get(DiffResult(prior, joins, leaves), k) == Get(SyncResult(prior, snapshot), k)
      ensures k in joins ==> Get(prior, k) == Get(kept, k)
      ensures !(k in prior && k !in snapshot) ==>
                Get(AfterJoins(prior, joins), k) == Get(AfterJoins(kept, joins), k)
      ensures k in prior && k !in snapshot ==>
                && k in leaves && k in AfterJoins(prior, joins) && k !in AfterJoins(kept, joins)
                && LeaveEvent(AfterJoins(prior, joins), leaves, k) == Leave.Leave(k, Presence([]), prior[k])
    {
      if k in prior && k !in snapshot {
        DepartedKeysVanish(prior, snapshot, k);
      } else {
        OtherKeysAgree(prior, snapshot, k);
      }
    }
    SameMap(DiffResult(prior, joins, leaves), SyncResult(prior, snapshot));
    hide AfterJoins, DiffResult, SyncResult, SnapshotLeaves;
  }
}
