/**
 What a presence snapshot and a presence diff do to a replica, key by key and independent of the order in
 which the hash maps are visited (src/rust/presences/listener.rs). PresenceListener.dfy ties the
 in-place loops to this.
 */
module Presences {
  import opened Wrappers
  import opened Messages

  datatype Meta = Meta(joinReference: Text, others: map<Text, Json>)

  datatype Presence = Presence(metas: seq<Meta>)

  type PresenceByKey = map<Text, Presence>

  datatype Join = Join(key: Text, current: Option<Presence>, joined: Presence)

  datatype Leave = Leave(key: Text, current: Presence, left: Presence)

  function JoinReferences(metas: seq<Meta>): set<Text> {
    set m | m in metas :: m.joinReference
  }

  /** The metas whose references are not among the given ones, in their old order. */
  function Without(metas: seq<Meta>, references: set<Text>): seq<Meta> {
    if |metas| == 0 then []
    else
      var last := metas[|metas| - 1];
      Without(metas[..|metas| - 1], references) + (if last.joinReference in references then [] else [last])
  }

  function Get(m: PresenceByKey, key: Text): Option<Presence> {
    if key in m then Some(m[key]) else None
  }

  lemma SameMap(a: PresenceByKey, b: PresenceByKey)
    requires forall k :: Get(a, k) == Get(b, k)
    ensures a == b
  {
    forall k ensures (k in a <==> k in b) && (k in a ==> a[k] == b[k]) {
      assert Get(a, k) == Get(b, k);
    }
  }

  function Merge(current: Option<Presence>, joined: Presence): Presence {
    if current.Some? then
      Presence(joined.metas + Without(current.value.metas, JoinReferences(joined.metas)))
    else joined
  }

  function AfterJoins(m: PresenceByKey, joins: PresenceByKey): PresenceByKey {
    map k | k in m.Keys + joins.Keys :: if k in joins then Merge(Get(m, k), joins[k]) else m[k]
  }

  function Survivors(current: Presence, left: Presence): Presence {
    Presence(Without(current.metas, JoinReferences(left.metas)))
  }

  function AfterLeaves(m: PresenceByKey, leaves: PresenceByKey): PresenceByKey {
    map k | k in m && (k in leaves ==> Survivors(m[k], leaves[k]).metas != []) ::
      if k in leaves then Survivors(m[k], leaves[k]) else m[k]
  }

  function DiffResult(m: PresenceByKey, joins: PresenceByKey, leaves: PresenceByKey): PresenceByKey {
    AfterLeaves(AfterJoins(m, joins), leaves)
  }

  function JoinEvent(m: PresenceByKey, joins: PresenceByKey, key: Text): Join
    requires key in joins
  {
    Join.Join(key, Get(m, key), Merge(Get(m, key), joins[key]))
  }

  /** A Leave carries what survives it as `current`. */
  function LeaveEvent(m: PresenceByKey, leaves: PresenceByKey, key: Text): Leave
    requires key in leaves && key in m
  {
    Leave.Leave(key, Survivors(m[key], leaves[key]), leaves[key])
  }

  /** One Join for each joined key, in some order. */
  ghost predicate LogsJoins(events: seq<Join>, m: PresenceByKey, joins: PresenceByKey) {
    && (forall i, j | 0 <= i < j < |events| :: events[i].key != events[j].key)
    && (forall k :: k in joins <==> exists i :: 0 <= i < |events| && events[i].key == k)
    && (forall i | 0 <= i < |events| :: events[i].key in joins && events[i] == JoinEvent(m, joins, events[i].key))
  }

  /** One Leave for each left key that is present, in some order. */
  ghost predicate LogsLeaves(events: seq<Leave>, m: PresenceByKey, leaves: PresenceByKey) {
    && (forall i, j | 0 <= i < j < |events| :: events[i].key != events[j].key)
    && (forall k :: k in leaves && k in m <==> exists i :: 0 <= i < |events| && events[i].key == k)
    && (forall i | 0 <= i < |events| ::
          && events[i].key in leaves && events[i].key in m
          && events[i] == LeaveEvent(m, leaves, events[i].key))
  }

  // ---------------------------------------------------------------------------------- index by index

  /** Some meta among these has the reference. */
  predicate HasReference(metas: seq<Meta>, reference: Text) {
    exists j :: 0 <= j < |metas| && metas[j].joinReference == reference
  }

  /** The picked positions are, in order, those of the metas whose reference no other meta has, and `kept` is what
      stands there. */
  ghost predicate Keeps(kept: seq<Meta>, metas: seq<Meta>, others: seq<Meta>, picks: seq<nat>) {
    && |kept| == |picks|
    && (forall i, j | 0 <= i < j < |picks| :: picks[i] < picks[j])
    && (forall i | 0 <= i < |picks| :: picks[i] < |metas| && kept[i] == metas[picks[i]])
    && (forall n: nat | n < |metas| :: n in picks <==> !HasReference(others, metas[n].joinReference))
  }

  /** The joined metas come first, all of them as they were sent; then follow those of the old ones whose reference was
      not joined, as they were and in their old order. */
  ghost predicate Joins(merged: seq<Meta>, prior: seq<Meta>, joined: seq<Meta>, picks: seq<nat>) {
    joined <= merged && Keeps(merged[|joined|..], prior, joined, picks)
  }

  function MetasAt(m: PresenceByKey, key: Text): seq<Meta> {
    if key in m then m[key].metas else []
  }

  /** The diff leaves this meta under this key: it was joined, or was there and no joined one has its reference; and
      its reference was not left. */
  predicate InDiff(m: PresenceByKey, joins: PresenceByKey, leaves: PresenceByKey, key: Text, meta: Meta) {
    && (meta in MetasAt(joins, key)
        || (meta in MetasAt(m, key) && !HasReference(MetasAt(joins, key), meta.joinReference)))
    && !HasReference(MetasAt(leaves, key), meta.joinReference)
  }

  lemma {:induction false} WithoutKeeps(metas: seq<Meta>, others: seq<Meta>) returns (picks: seq<nat>)
    ensures Keeps(Without(metas, JoinReferences(others)), metas, others, picks)
  {
    if |metas| == 0 {
      picks := [];
    } else {
      var last := |metas| - 1;
      picks := WithoutKeeps(metas[..last], others);
      assert forall n: nat | n < last :: metas[..last][n] == metas[n];
      ReferenceIsListed(others, metas[last].joinReference);
      if !HasReference(others, metas[last].joinReference) {
        picks := picks + [last];
      }
    }
  }

  lemma ReferenceIsListed(metas: seq<Meta>, reference: Text)
    ensures reference in JoinReferences(metas) <==> HasReference(metas, reference)
  {
    if reference in JoinReferences(metas) {
      var m :| m in metas && m.joinReference == reference;
    }
  }

  lemma MergeJoins(current: Option<Presence>, joined: Presence) returns (picks: seq<nat>)
    ensures Joins(Merge(current, joined).metas, if current.Some? then current.value.metas else [], joined.metas, picks)
  {
    if current.Some? {
      picks := WithoutKeeps(current.value.metas, joined.metas);
      var merged := Merge(current, joined).metas;
      assert merged[|joined.metas|..] == Without(current.value.metas, JoinReferences(joined.metas));
    } else {
      picks := [];
      assert joined.metas[|joined.metas|..] == [];
    }
  }

  // ---------------------------------------------------------------------------------- snapshots

  /** The part of the old map whose keys the snapshot still has. */
  function Kept(prior: PresenceByKey, snapshot: PresenceByKey): PresenceByKey {
    map k | k in prior && k in snapshot :: prior[k]
  }

  /** The keys that the snapshot joins, and with which metas. */
  function SnapshotJoins(prior: PresenceByKey, snapshot: PresenceByKey): PresenceByKey {
    map k | k in snapshot
            && (k in prior ==> Without(snapshot[k].metas, JoinReferences(prior[k].metas)) != []) ::
      if k in prior then Presence(Without(snapshot[k].metas, JoinReferences(prior[k].metas)))
      else snapshot[k]
  }

  /** The keys that the snapshot leaves, with the metas that leave; a key that is wholly gone leaves with
      all of them. */
  function SnapshotLeaves(prior: PresenceByKey, snapshot: PresenceByKey): PresenceByKey {
    map k | k in prior
            && (k in snapshot ==> Without(prior[k].metas, JoinReferences(snapshot[k].metas)) != []) ::
      if k in snapshot then Presence(Without(prior[k].metas, JoinReferences(snapshot[k].metas)))
      else prior[k]
  }

  function SyncResult(prior: PresenceByKey, snapshot: PresenceByKey): PresenceByKey {
    DiffResult(Kept(prior, snapshot), SnapshotJoins(prior, snapshot), SnapshotLeaves(prior, snapshot))
  }
}
