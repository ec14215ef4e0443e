/**
 The presence listener's replica as the code keeps it: one map, rewritten in place while Join and Leave events
 are sent (src/rust/presences/listener.rs). The hash maps are visited in an arbitrary order.
 */
module PresenceListener {
  import opened Wrappers
  import opened Messages
  import opened Presences
  import opened PresenceTheorems

  /** The metas whose references are not among the given ones: the code's filters and its retain. */
  method FilterOut(metas: seq<Meta>, references: set<Text>) returns (kept: seq<Meta>)
    ensures kept == Without(metas, references)
  {
    kept := [];
    for i := 0 to |metas|
      invariant kept == Without(metas[..i], references)
    {
      assert metas[..i + 1][..i] == metas[..i];
      if metas[i].joinReference !in references {
        kept := kept + [metas[i]];
      }
    }
    assert metas[..|metas|] == metas;
  }

  /** A log of the joins of some keys only: what the loop has sent so far. */
  ghost predicate LogsSomeJoins(events: seq<Join>, m: PresenceByKey, joins: PresenceByKey, done: set<Text>) {
    && (forall i, j | 0 <= i < j < |events| :: events[i].key != events[j].key)
    && (forall k :: k in joins && k in done <==> exists i :: 0 <= i < |events| && events[i].key == k)
    && (forall i | 0 <= i < |events| :: events[i].key in joins && events[i] == JoinEvent(m, joins, events[i].key))
  }

  lemma ExtendJoinLog(events: seq<Join>, m: PresenceByKey, joins: PresenceByKey, done: set<Text>, key: Text)
    requires LogsSomeJoins(events, m, joins, done) && key in joins && key !in done
    ensures LogsSomeJoins(events + [JoinEvent(m, joins, key)], m, joins, done + {key})
  {
    var longer := events + [JoinEvent(m, joins, key)];
    assert longer[|events|].key == key;
    forall k | k in joins && k in done ensures exists i :: 0 <= i < |longer| && longer[i].key == k {
      var i :| 0 <= i < |events| && events[i].key == k;
      assert longer[i].key == k;
    }
    hide JoinEvent;
  }

  lemma JoinLogEnds(events: seq<Join>, m: PresenceByKey, joins: PresenceByKey, done: set<Text>)
    ensures LogsSomeJoins([], m, joins, {})
    ensures LogsSomeJoins(events, m, joins, done) && joins.Keys <= done ==> LogsJoins(events, m, joins)
  {
  }

  ghost predicate LogsSomeLeaves(events: seq<Leave>, m: PresenceByKey, leaves: PresenceByKey, done: set<Text>) {
    && (forall i, j | 0 <= i < j < |events| :: events[i].key != events[j].key)
    && (forall k :: k in leaves && k in m && k in done <==> exists i :: 0 <= i < |events| && events[i].key == k)
    && (forall i | 0 <= i < |events| ::
          && events[i].key in leaves && events[i].key in m
          && events[i] == LeaveEvent(m, leaves, events[i].key))
  }

  lemma ExtendLeaveLog(events: seq<Leave>, m: PresenceByKey, leaves: PresenceByKey, done: set<Text>, key: Text)
    requires LogsSomeLeaves(events, m, leaves, done) && key in leaves && key !in done
    ensures key in m ==> LogsSomeLeaves(events + [LeaveEvent(m, leaves, key)], m, leaves, done + {key})
    ensures key !in m ==> LogsSomeLeaves(events, m, leaves, done + {key})
  {
    if key in m {
      var longer := events + [LeaveEvent(m, leaves, key)];
      assert longer[|events|].key == key;
      forall k | k in leaves && k in m && k in done ensures exists i :: 0 <= i < |longer| && longer[i].key == k {
        var i :| 0 <= i < |events| && events[i].key == k;
        assert longer[i].key == k;
      }
    }
    hide LeaveEvent;
  }

  lemma LeaveLogEnds(events: seq<Leave>, m: PresenceByKey, leaves: PresenceByKey, done: set<Text>)
    ensures LogsSomeLeaves([], m, leaves, {})
    ensures LogsSomeLeaves(events, m, leaves, done) && leaves.Keys <= done ==> LogsLeaves(events, m, leaves)
  {
  }

  /** A Join carries what was there, and the joined metas in front of what is kept of it. */
  ghost predicate AnnouncesJoin(e: Join, prior: PresenceByKey, joins: PresenceByKey) {
    && e.key in joins
    && (e.current.Some? <==> e.key in prior) && (e.key in prior ==> e.current.value == prior[e.key])
    && exists picks :: Presences.Joins(e.joined.metas, MetasAt(prior, e.key), joins[e.key].metas, picks)
  }

  class Replica {
    var presenceByKey: PresenceByKey
    var joinEvents: seq<Join>
    var leaveEvents: seq<Leave>
    var syncs: nat

    constructor ()
      ensures presenceByKey == map[] && joinEvents == [] && leaveEvents == [] && syncs == 0
    {
      presenceByKey, joinEvents, leaveEvents, syncs := map[], [], [], 0;
    }

    /** Merges one joined presence in and announces it. */
    method JoinOne(key: Text, joined: Presence) returns (ghost picks: seq<nat>)
      modifies this`presenceByKey, this`joinEvents
      ensures key in presenceByKey && presenceByKey - {key} == old(presenceByKey) - {key}
      ensures Presences.Joins(presenceByKey[key].metas, MetasAt(old(presenceByKey), key), joined.metas, picks)
      ensures presenceByKey == old(presenceByKey)[key := Merge(Get(old(presenceByKey), key), joined)]
      ensures joinEvents == old(joinEvents)
                            + [Join.Join(key, Get(old(presenceByKey), key),
                                         Merge(Get(old(presenceByKey), key), joined))]
    {
      var current := Get(presenceByKey, key);
      picks := MergeJoins(current, joined);
      hide Keeps;
      var merged := joined;
      if current.Some? {
        var currentMetas := FilterOut(current.value.metas, JoinReferences(joined.metas));
        merged := Presence(joined.metas + currentMetas);
      }
      presenceByKey := presenceByKey[key := merged];
      joinEvents := joinEvents + [Join.Join(key, current, merged)];
    }

    /** Takes one left presence out, announces it, and drops a key that has nothing left. */
    method LeaveOne(key: Text, left: Presence) returns (ghost picks: seq<nat>)
      modifies this`presenceByKey, this`leaveEvents
      ensures key in old(presenceByKey) ==>
                && |leaveEvents| == |old(leaveEvents)| + 1
                && Keeps(leaveEvents[|leaveEvents| - 1].current.metas, old(presenceByKey)[key].metas, left.metas, picks)
      ensures key !in old(presenceByKey) ==>
                presenceByKey == old(presenceByKey) && leaveEvents == old(leaveEvents)
      ensures key in old(presenceByKey) ==>
                var survivors := Survivors(old(presenceByKey)[key], left);
                && presenceByKey == (if survivors.metas == [] then old(presenceByKey) - {key}
                                     else old(presenceByKey)[key := survivors])
                && leaveEvents == old(leaveEvents) + [Leave.Leave(key, survivors, left)]
    {
      hide Keeps;
      picks := [];
      if key in presenceByKey {
        picks := WithoutKeeps(presenceByKey[key].metas, left.metas);
        var metas := FilterOut(presenceByKey[key].metas, JoinReferences(left.metas));
        presenceByKey := presenceByKey[key := Presence(metas)];
        leaveEvents := leaveEvents + [Leave.Leave(key, Presence(metas), left)];
        if metas == [] {
          presenceByKey := presenceByKey - {key};
        }
      }
    }

    /** Runs the joins and then the leaves of a diff, each in an arbitrary order. */
    method SyncDiff(joins: PresenceByKey, leaves: PresenceByKey)
      returns (ghost newJoins: seq<Join>, ghost newLeaves: seq<Leave>)
      modifies this`presenceByKey, this`joinEvents, this`leaveEvents
      ensures presenceByKey == DiffResult(old(presenceByKey), joins, leaves)
      ensures joinEvents == old(joinEvents) + newJoins && LogsJoins(newJoins, old(presenceByKey), joins)
      ensures leaveEvents == old(leaveEvents) + newLeaves
      ensures LogsLeaves(newLeaves, AfterJoins(old(presenceByKey), joins), leaves)
      ensures forall key, meta :: key in presenceByKey && meta in presenceByKey[key].metas
                                  <==> InDiff(old(presenceByKey), joins, leaves, key, meta)
      ensures forall e | e in newJoins :: AnnouncesJoin(e, old(presenceByKey), joins)
    {
      hide InDiff, DiffResult, LogsLeaves;
      ghost var prior := presenceByKey;
      newJoins := SyncJoins(joins);
      newLeaves := SyncLeaves(leaves);
      assert presenceByKey == DiffResult(prior, joins, leaves) by { DiffIsBoth(prior, joins, leaves); }
      forall key, meta ensures key in presenceByKey && meta in presenceByKey[key].metas
                               <==> InDiff(prior, joins, leaves, key, meta)
      {
        DiffedMetas(prior, joins, leaves, key, meta);
      }
      forall e | e in newJoins ensures AnnouncesJoin(e, prior, joins) {
        var picks := JoinedMetas(prior, joins, e.key);
      }
    }

    lemma DiffIsBoth(m: PresenceByKey, joins: PresenceByKey, leaves: PresenceByKey)
      ensures DiffResult(m, joins, leaves) == AfterLeaves(AfterJoins(m, joins), leaves)
    {
    }

    method SyncJoins(joins: PresenceByKey) returns (ghost events: seq<Join>)
      modifies this`presenceByKey, this`joinEvents
      ensures presenceByKey == AfterJoins(old(presenceByKey), joins)
      ensures joinEvents == old(joinEvents) + events && LogsJoins(events, old(presenceByKey), joins)
    {
      hide Without, JoinReferences, LogsSomeJoins, LogsJoins;
      ghost var prior := presenceByKey;
      events := [];
      var remaining := joins.Keys;
      JoinLogEnds(events, prior, joins, {});
      assert joins.Keys - remaining == {};
      while remaining != {}
        invariant remaining <= joins.Keys
        invariant forall k :: Get(presenceByKey, k)
                              == if k in joins && k !in remaining then Some(Merge(Get(prior, k), joins[k]))
                                 else Get(prior, k)
        invariant joinEvents == old(joinEvents) + events
        invariant LogsSomeJoins(events, prior, joins, joins.Keys - remaining)
        decreases remaining
      {
        var key :| key in remaining;
        assert Get(presenceByKey, key) == Get(prior, key);
        ExtendJoinLog(events, prior, joins, joins.Keys - remaining, key);
        assert joins.Keys - (remaining - {key}) == (joins.Keys - remaining) + {key};
        ghost var picks := JoinOne(key, joins[key]);
        events := events + [JoinEvent(prior, joins, key)];
        remaining := remaining - {key};
      }
      JoinLogEnds(events, prior, joins, joins.Keys - remaining);
      assert forall k :: Get(presenceByKey, k) == Get(AfterJoins(prior, joins), k);
      SameMap(presenceByKey, AfterJoins(prior, joins));
    }

    method SyncLeaves(leaves: PresenceByKey) returns (ghost events: seq<Leave>)
      modifies this`presenceByKey, this`leaveEvents
      ensures presenceByKey == AfterLeaves(old(presenceByKey), leaves)
      ensures leaveEvents == old(leaveEvents) + events && LogsLeaves(events, old(presenceByKey), leaves)
    {
      hide Without, JoinReferences, LogsSomeLeaves, LogsLeaves;
      ghost var prior := presenceByKey;
      events := [];
      var remaining := leaves.Keys;
      LeaveLogEnds(events, prior, leaves, {});
      assert leaves.Keys - remaining == {};
      while remaining != {}
        invariant remaining <= leaves.Keys
        invariant forall k :: Get(presenceByKey, k)
                              == if k in leaves && k !in remaining then Get(AfterLeaves(prior, leaves), k)
                                 else Get(prior, k)
        invariant leaveEvents == old(leaveEvents) + events
        invariant LogsSomeLeaves(events, prior, leaves, leaves.Keys - remaining)
        decreases remaining
      {
        var key :| key in remaining;
        assert Get(presenceByKey, key) == Get(prior, key);
        ExtendLeaveLog(events, prior, leaves, leaves.Keys - remaining, key);
        assert leaves.Keys - (remaining - {key}) == (leaves.Keys - remaining) + {key};
        ghost var picks := LeaveOne(key, leaves[key]);
        if key in prior {
          events := events + [LeaveEvent(prior, leaves, key)];
        }
        remaining := remaining - {key};
      }
      LeaveLogEnds(events, prior, leaves, leaves.Keys - remaining);
      SameMap(presenceByKey, AfterLeaves(prior, leaves));
    }

    /** Drops the keys the snapshot no longer has, works out what joined and left, and runs that as a diff. */
    method Sync(snapshot: PresenceByKey) returns (ghost newJoins: seq<Join>, ghost newLeaves: seq<Leave>)
      modifies this`presenceByKey, this`joinEvents, this`leaveEvents
      ensures presenceByKey == SyncResult(old(presenceByKey), snapshot)
      ensures var kept, joins := Kept(old(presenceByKey), snapshot), SnapshotJoins(old(presenceByKey), snapshot);
              && joinEvents == old(joinEvents) + newJoins && LogsJoins(newJoins, kept, joins)
              && leaveEvents == old(leaveEvents) + newLeaves
              && LogsLeaves(newLeaves, AfterJoins(kept, joins), SnapshotLeaves(old(presenceByKey), snapshot))
    {
      ghost var prior := presenceByKey;
      var left := map k | k in presenceByKey && k !in snapshot :: presenceByKey[k];
      presenceByKey := map k | k in presenceByKey && k in snapshot :: presenceByKey[k];
      var joined: PresenceByKey := map[];
      var remaining := snapshot.Keys;
      while remaining != {}
        invariant remaining <= snapshot.Keys
        invariant presenceByKey == Kept(prior, snapshot) && joinEvents == old(joinEvents)
        invariant leaveEvents == old(leaveEvents)
        invariant forall k :: Get(joined, k)
                              == if k in remaining then None else Get(SnapshotJoins(prior, snapshot), k)
        invariant forall k :: Get(left, k)
                              == if k in remaining then None else Get(SnapshotLeaves(prior, snapshot), k)
        decreases remaining
      {
        var key :| key in remaining;
        ghost var joinedBefore, leftBefore := joined, left;
        var presence := snapshot[key];
        if key in presenceByKey {
          var current := presenceByKey[key];
          var joinedMetas := FilterOut(presence.metas, JoinReferences(current.metas));
          var leftMetas := FilterOut(current.metas, JoinReferences(presence.metas));
          if joinedMetas != [] {
            joined := joined[key := Presence(joinedMetas)];
          }
          if leftMetas != [] {
            left := left[key := Presence(leftMetas)];
          }
        } else {
          joined := joined[key := presence];
        }
        assert Get(joinedBefore, key) == None && Get(leftBefore, key) == None;
        remaining := remaining - {key};
      }
      SameMap(joined, SnapshotJoins(prior, snapshot));
      SameMap(left, SnapshotLeaves(prior, snapshot));
      newJoins, newLeaves := SyncDiff(joined, left);
    }

    /** A presence_state message: synced when it decodes, ignored when it does not. */
    method PresenceState<E>(decoded: Result<PresenceByKey, E>)
      returns (ghost newJoins: seq<Join>, ghost newLeaves: seq<Leave>)
      modifies this
      ensures decoded.Failure? ==> unchanged(this)
      ensures decoded.Success? ==>
                var prior, snapshot := old(presenceByKey), decoded.value;
                var kept, joins := Kept(prior, snapshot), SnapshotJoins(prior, snapshot);
                && presenceByKey == SyncResult(prior, snapshot) && syncs == old(syncs) + 1
                && joinEvents == old(joinEvents) + newJoins && LogsJoins(newJoins, kept, joins)
                && leaveEvents == old(leaveEvents) + newLeaves
                && LogsLeaves(newLeaves, AfterJoins(kept, joins), SnapshotLeaves(prior, snapshot))
    {
      newJoins, newLeaves := [], [];
      if decoded.Success? {
        newJoins, newLeaves := Sync(decoded.value);
        syncs := syncs + 1;
      }
    }

    /** A presence_diff message: merged when it decodes, ignored when it does not. */
    method PresenceDiff<E>(decoded: Result<(PresenceByKey, PresenceByKey), E>)
      returns (ghost newJoins: seq<Join>, ghost newLeaves: seq<Leave>)
      modifies this
      ensures decoded.Failure? ==> unchanged(this)
      ensures decoded.Success? ==>
                var prior, (joins, leaves) := old(presenceByKey), decoded.value;
                && presenceByKey == DiffResult(prior, joins, leaves) && syncs == old(syncs) + 1
                && joinEvents == old(joinEvents) + newJoins && LogsJoins(newJoins, prior, joins)
                && leaveEvents == old(leaveEvents) + newLeaves
                && LogsLeaves(newLeaves, AfterJoins(prior, joins), leaves)
    {
      newJoins, newLeaves := [], [];
      if decoded.Success? {
        newJoins, newLeaves := SyncDiff(decoded.value.0, decoded.value.1);
        syncs := syncs + 1;
      }
    }
  }
}
