/** The part tables (`store.rs`): one current snapshot per part key, and the queue of keys that
    await a lookup, keyed by part key and the time they were first seen. Times are in
    milliseconds; stored stamps are cut to the second. */
module PartStore {
  import opened Prelude
  import Sorting
  import opened SnapshotCodec

  const MAX_ATTEMPTS: nat := 10
  const BACKOFF: int := 30_000
  const U32_MAX: nat := 0xFFFF_FFFF

  /** A part key. */
  datatype Key = Key(text: string)

  datatype RowKey = RowKey(pk: Key, firstSeen: int)

  /** `lastAttempt` is absent when the row has none that parses. */
  datatype Row = Row(attempts: nat, lastAttempt: Option<int>)

  datatype UnresolvedItem = UnresolvedItem(pk: Key, firstSeen: int, row: Row)

  type Queue = map<RowKey, Row>

  function Stamp(now: int): int { now - now % 1000 }

  // ----- snapshots -----

  /** The snapshot a batch read finds: stored, and decodable. */
  function Snapshot(items: map<Key, Item>, pk: Key): Option<PartResult> {
    if pk in items then Decode(items[pk]) else None
  }

  function SnapshotsOf(items: map<Key, Item>, pks: set<Key>): map<Key, PartResult> {
    map pk | pk in pks && Snapshot(items, pk).Some? :: Snapshot(items, pk).value
  }

  /** What a batch read would find after a write. */
  function Written(snapshots: map<Key, PartResult>, pk: Key, part: PartResult): map<Key, PartResult> {
    if part.fetchedAt == "" then snapshots - {pk} else snapshots[pk := Stored(part)]
  }

  /** The snapshots a batch read finds, as a map. */
  ghost predicate ReadsAs(items: map<Key, Item>, snapshots: map<Key, PartResult>) {
    forall pk :: Snapshot(items, pk) == if pk in snapshots then Some(snapshots[pk]) else None
  }

  /** Writing a snapshot and reading it back. */
  lemma PutThenRead(items: map<Key, Item>, snapshots: map<Key, PartResult>, pk: Key, part: PartResult)
    requires ReadsAs(items, snapshots)
    ensures ReadsAs(items[pk := Encode(pk.text, part)], Written(snapshots, pk, part))
  {
    DecodeEncode(pk.text, part);
    var items' := items[pk := Encode(pk.text, part)];
    forall k ensures Snapshot(items', k) == if k == pk then Decode(Encode(pk.text, part)) else Snapshot(items, k) {}
  }

  // ----- the queue -----

  predicate HasRow(q: Queue, pk: Key) { exists k :: k in q && k.pk == pk }

  function FreshRow(now: int): Row { Row(0, Some(Stamp(now))) }

  function KeySet(pks: seq<Key>): set<Key> { set pk | pk in pks }

  function StampedKeys(pks: set<Key>, now: int): set<RowKey> { set pk | pk in pks :: RowKey(pk, Stamp(now)) }

  /** The keys without a row get one. */
  function Enqueued(q: Queue, pks: set<Key>, now: int): Queue {
    q + map k | k in StampedKeys(pks, now) && !HasRow(q, k.pk) :: FreshRow(now)
  }

  /** A row key that enqueueing adds. */
  predicate IsNewRow(q: Queue, pks: set<Key>, now: int, k: RowKey) {
    k.pk in pks && k.firstSeen == Stamp(now) && !HasRow(q, k.pk)
  }

  lemma EnqueuedAt(q: Queue, pks: set<Key>, now: int, k: RowKey)
    ensures k in Enqueued(q, pks, now) <==> k in q || IsNewRow(q, pks, now, k)
    ensures k in q ==> Enqueued(q, pks, now)[k] == q[k]
    ensures IsNewRow(q, pks, now, k) ==> Enqueued(q, pks, now)[k] == FreshRow(now)
  {
    assert k in StampedKeys(pks, now) <==> k.pk in pks && k == RowKey(k.pk, Stamp(now));
    if k in q {
      assert HasRow(q, k.pk);
    }
  }

  function WithoutKey(q: Queue, pk: Key): Queue { map k | k in q && k.pk != pk :: q[k] }

  function WithoutKeys(q: Queue, pks: set<Key>): Queue { map k | k in q && k.pk !in pks :: q[k] }

  function NextAttempt(attempts: nat): nat { if attempts >= U32_MAX then U32_MAX else attempts + 1 }

  /** Written by row key, whether or not the row is still there. */
  function Marked(q: Queue, item: UnresolvedItem, now: int): Queue {
    q[RowKey(item.pk, item.firstSeen) := Row(NextAttempt(item.row.attempts), Some(Stamp(now)))]
  }

  predicate IsPoison(r: Row) { r.attempts >= MAX_ATTEMPTS }

  /** Within the backoff after a failed attempt; an attempt in the future counts as just now. */
  predicate InBackoff(r: Row, now: int) {
    r.lastAttempt.Some? && r.attempts > 0 && now - r.lastAttempt.value < BACKOFF
  }

  predicate IsReady(r: Row, now: int) { !IsPoison(r) && !InBackoff(r, now) }

  datatype ScanResult = ScanResult(claimed: seq<UnresolvedItem>, dropped: set<Key>, seen: set<Key>)

  /** What the scan makes of one more row; it stops once it has claimed `limit`. */
  function ScanOne(r: ScanResult, item: UnresolvedItem, limit: nat, now: int): ScanResult {
    if |r.claimed| >= limit || item.pk in r.seen then r
    else
      var r' := r.(seen := r.seen + {item.pk});
      if IsPoison(item.row) then r'.(dropped := r.dropped + {item.pk})
      else if InBackoff(item.row, now) then r'
      else r'.(claimed := r.claimed + [item])
  }

  function Scan(scan: seq<UnresolvedItem>, limit: nat, now: int): ScanResult {
    if scan == [] then ScanResult([], {}, {})
    else ScanOne(Scan(scan[..|scan| - 1], limit, now), scan[|scan| - 1], limit, now)
  }

  predicate SeenEarlier(a: UnresolvedItem, b: UnresolvedItem) { a.firstSeen <= b.firstSeen }

  function Claim(q: Queue, scan: seq<UnresolvedItem>, limit: nat, now: int): (Queue, seq<UnresolvedItem>) {
    var r := Scan(scan, limit, now);
    (WithoutKeys(q, r.dropped), Sorting.StableSort(r.claimed, SeenEarlier))
  }

  /** The table scan returns every row once, in some order. */
  ghost predicate IsScan(q: Queue, scan: seq<UnresolvedItem>) {
    && (forall i :: 0 <= i < |scan| ==>
          var k := RowKey(scan[i].pk, scan[i].firstSeen); k in q && q[k] == scan[i].row)
    && (forall i, j :: 0 <= i < j < |scan| ==> scan[i] != scan[j])
    && (forall k :: k in q ==> UnresolvedItem(k.pk, k.firstSeen, q[k]) in scan)
  }

  class Tables {
    var items: map<Key, Item>
    var queue: Queue

    constructor ()
      ensures items == map[] && queue == map[]
    {
      items, queue := map[], map[];
    }

    method PutSnapshot(pk: Key, part: PartResult)
      modifies this`items
      ensures items == old(items)[pk := Encode(pk.text, part)]
    {
      var item := ResultToItem(pk.text, part);
      items := items[pk := item];
    }

    method GetMany(pks: set<Key>) returns (found: map<Key, PartResult>)
      ensures found == SnapshotsOf(items, pks)
    {
      found := map pk | pk in pks && pk in items && Decode(items[pk]).Some? :: Decode(items[pk]).value;
    }

    method DeleteSnapshot(pk: Key)
      modifies this`items
      ensures items == old(items) - {pk}
    {
      items := items - {pk};
    }

    method HasUnresolved(pk: Key) returns (found: bool)
      ensures found <==> HasRow(queue, pk)
    {
      found := exists k :: k in queue && k.pk == pk;
    }

    method EnqueueUnresolved(pk: Key, now: int) returns (added: bool)
      modifies this`queue
      ensures queue == EnqueuedOne(old(queue), pk, now)
      ensures |queue| == |old(queue)| + if added then 1 else 0
    {
      var queued := HasUnresolved(pk);
      if queued {
        return false;
      }
      assert RowKey(pk, Stamp(now)) !in queue;
      queue := queue[RowKey(pk, Stamp(now)) := FreshRow(now)];
      added := true;
    }

    /** Enqueues the keys not already queued and counts them. */
    method EnqueueUnresolvedMany(pks: seq<Key>, now: int) returns (enqueued: nat)
      modifies this`queue
      ensures queue == Enqueued(old(queue), KeySet(pks), now)
      ensures |queue| == |old(queue)| + enqueued
    {
      enqueued := 0;
      EnqueueNone(old(queue), now);
      assert pks[..0] == [];
      for i := 0 to |pks|
        invariant queue == Enqueued(old(queue), KeySet(pks[..i]), now)
        invariant |queue| == |old(queue)| + enqueued
      {
        EnqueueNext(old(queue), pks, i, now);
        var added := EnqueueUnresolved(pks[i], now);
        if added {
          enqueued := enqueued + 1;
        }
      }
      assert pks[..|pks|] == pks;
    }

    method DeleteUnresolved(pk: Key)
      modifies this`queue
      ensures queue == WithoutKey(old(queue), pk)
    {
      queue := map k | k in queue && k.pk != pk :: queue[k];
    }

    method MarkAttempted(item: UnresolvedItem, now: int)
      modifies this`queue
      ensures queue == Marked(old(queue), item, now)
    {
      var next := if item.row.attempts >= U32_MAX then U32_MAX else item.row.attempts + 1;
      queue := queue[RowKey(item.pk, item.firstSeen) := Row(next, Some(Stamp(now)))];
    }

    /** Claims up to `limit` rows from a scan of the queue, dropping poisoned keys on the way. */
    method ClaimUnresolved(scan: seq<UnresolvedItem>, limit: nat, now: int) returns (claimed: seq<UnresolvedItem>)
      modifies this`queue
      ensures (queue, claimed) == Claim(old(queue), scan, limit, now)
    {
      claimed := [];
      var seen: set<Key> := {};
      ghost var dropped: set<Key> := {};
      var i := 0;
      while i < |scan| && |claimed| < limit
        invariant 0 <= i <= |scan|
        invariant Scan(scan[..i], limit, now) == ScanResult(claimed, dropped, seen)
        invariant queue == WithoutKeys(old(queue), dropped)
      {
        var item := scan[i];
        assert scan[..i + 1][..i] == scan[..i];
        i := i + 1;
        if item.pk in seen {
          continue;
        }
        seen := seen + {item.pk};
        if item.row.attempts >= MAX_ATTEMPTS {
          DeleteUnresolved(item.pk);
          dropped := dropped + {item.pk};
        } else if !(item.row.lastAttempt.Some? && item.row.attempts > 0 && now - item.row.lastAttempt.value < BACKOFF) {
          claimed := claimed + [item];
        }
      }
      ScanStops(scan, i, limit, now);
      claimed := Sorting.StableSort(claimed, SeenEarlier);
    }
  }

  lemma EnqueuedHasRow(q: Queue, pks: set<Key>, now: int, pk: Key)
    ensures HasRow(Enqueued(q, pks, now), pk) <==> HasRow(q, pk) || pk in pks
  {
    var q' := Enqueued(q, pks, now);
    if k :| k in q' && k.pk == pk {
      EnqueuedAt(q, pks, now, k);
    }
    if k :| k in q && k.pk == pk {
      EnqueuedAt(q, pks, now, k);
      assert k in q';
    } else if pk in pks {
      EnqueuedAt(q, pks, now, RowKey(pk, Stamp(now)));
      assert RowKey(pk, Stamp(now)) in q';
    }
  }

  function EnqueuedOne(q: Queue, pk: Key, now: int): Queue {
    if HasRow(q, pk) then q else q[RowKey(pk, Stamp(now)) := FreshRow(now)]
  }

  lemma EnqueueNone(q: Queue, now: int)
    ensures Enqueued(q, KeySet([]), now) == q
  {
    forall k ensures (k in Enqueued(q, {}, now) <==> k in q) && (k in q ==> Enqueued(q, {}, now)[k] == q[k]) {
      EnqueuedAt(q, {}, now, k);
    }
  }

  /** One more key. */
  lemma EnqueueOne(q: Queue, pks: set<Key>, pk: Key, now: int)
    ensures Enqueued(q, pks + {pk}, now) == EnqueuedOne(Enqueued(q, pks, now), pk, now)
  {
    EnqueuedHasRow(q, pks, now, pk);
    var more, one := Enqueued(q, pks + {pk}, now), Enqueued(q, pks, now);
    var expected := EnqueuedOne(one, pk, now);
    forall k ensures (k in more <==> k in expected) && (k in more ==> more[k] == expected[k]) {
      EnqueuedAt(q, pks + {pk}, now, k);
      EnqueuedAt(q, pks, now, k);
    }
    assert more == expected;
  }

  lemma EnqueueNext(q: Queue, pks: seq<Key>, i: nat, now: int)
    requires i < |pks|
    ensures Enqueued(q, KeySet(pks[..i + 1]), now) == EnqueuedOne(Enqueued(q, KeySet(pks[..i]), now), pks[i], now)
  {
    assert KeySet(pks[..i + 1]) == KeySet(pks[..i]) + {pks[i]};
    EnqueueOne(q, KeySet(pks[..i]), pks[i], now);
  }

  /** Nothing changes once the scan has stopped. */
  lemma {:induction false} ScanStops(scan: seq<UnresolvedItem>, i: nat, limit: nat, now: int)
    requires i <= |scan|
    requires i == |scan| || |Scan(scan[..i], limit, now).claimed| >= limit
    ensures Scan(scan, limit, now) == Scan(scan[..i], limit, now)
    decreases |scan|
  {
    if i == |scan| {
      assert scan[..i] == scan;
    } else {
      assert scan[..|scan| - 1][..i] == scan[..i];
      ScanStops(scan[..|scan| - 1], i, limit, now);
    }
  }
}
