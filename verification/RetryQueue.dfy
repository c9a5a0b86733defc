/** The drain of the unresolved queue (`drain.rs`) over whole runs, interleaved with requests
    that enqueue keys and with other writers of snapshots. One drain loop; store accesses
    are steps. `rebuild` gives the key of the query that a queued key parses to. */
module RetryQueue {
  import opened Prelude
  import Sorting
  import PartKeys
  import Text
  import opened SnapshotCodec
  import opened PartStore

  // ----- claiming -----

  ghost predicate DistinctKeys(items: seq<UnresolvedItem>) {
    forall i, j :: 0 <= i < j < |items| ==> items[i].pk != items[j].pk
  }

  /** The first row of its key in the scan. */
  ghost predicate FirstOfKey(scan: seq<UnresolvedItem>, i: int) {
    0 <= i < |scan| && forall j :: 0 <= j < i ==> scan[j].pk != scan[i].pk
  }

  ghost predicate ScanOk(scan: seq<UnresolvedItem>, r: ScanResult, limit: nat, now: int) {
    && |r.claimed| <= limit && DistinctKeys(r.claimed)
    && (forall x :: x in r.claimed ==> x in scan && IsReady(x.row, now) && x.pk in r.seen && x.pk !in r.dropped)
    && (forall pk :: pk in r.dropped ==> pk in r.seen && exists x :: x in scan && x.pk == pk && IsPoison(x.row))
    && (forall pk :: pk in r.seen ==> exists x :: x in scan && x.pk == pk)
  }

  lemma {:induction false} ScanFacts(scan: seq<UnresolvedItem>, limit: nat, now: int)
    ensures ScanOk(scan, Scan(scan, limit, now), limit, now)
    decreases |scan|
  {
    if scan != [] {
      var n := |scan| - 1;
      ScanFacts(scan[..n], limit, now);
      var r, item := Scan(scan[..n], limit, now), scan[n];
      assert forall x :: x in scan[..n] ==> x in scan;
      assert item in scan;
    }
  }

  /** A scan that does not stop early decides every row that is its key's first. */
  lemma {:induction false} ScanReaches(scan: seq<UnresolvedItem>, i: nat, limit: nat, now: int)
    requires FirstOfKey(scan, i) && |Scan(scan, limit, now).claimed| < limit
    ensures scan[i].pk in Scan(scan, limit, now).seen
    ensures IsReady(scan[i].row, now) ==> scan[i] in Scan(scan, limit, now).claimed
    ensures IsPoison(scan[i].row) ==> scan[i].pk in Scan(scan, limit, now).dropped
    decreases |scan|
  {
    var n := |scan| - 1;
    var before := Scan(scan[..n], limit, now);
    if i < n {
      ScanReaches(scan[..n], i, limit, now);
    } else {
      ScanFacts(scan[..n], limit, now);
      assert scan[n].pk !in before.seen;
    }
  }

  predicate SameKey(a: UnresolvedItem, b: UnresolvedItem) { a.pk == b.pk }

  /** A claim stays within its limit, takes each key at most once, only rows outside their
      backoff and short of the attempt limit, and orders them by when they were first seen. */
  lemma ClaimIsSound(q: Queue, scan: seq<UnresolvedItem>, limit: nat, now: int)
    requires IsScan(q, scan)
    ensures var claimed := Claim(q, scan, limit, now).1;
            && |claimed| <= limit && DistinctKeys(claimed)
            && (forall x :: x in claimed ==>
                  var k := RowKey(x.pk, x.firstSeen);
                  && k in q && q[k] == x.row && x.row.attempts < MAX_ATTEMPTS
                  && (x.row.attempts > 0 && x.row.lastAttempt.Some? ==> now - x.row.lastAttempt.value >= BACKOFF))
            && (forall i, j :: 0 <= i < j < |claimed| ==> claimed[i].firstSeen <= claimed[j].firstSeen)
  {
    ScanFacts(scan, limit, now);
    var r := Scan(scan, limit, now);
    Sorting.SortElements(r.claimed, SeenEarlier);
    Sorting.SortOrdered(r.claimed, SeenEarlier);
    assert Sorting.PairwiseApart(r.claimed, SameKey);
    Sorting.PermutationStaysApart(r.claimed, Claim(q, scan, limit, now).1, SameKey);
    forall x | x in Claim(q, scan, limit, now).1 ensures x in r.claimed {
      assert x in multiset(r.claimed);
    }
  }

  /** A claim that falls short of its limit took every ready row that is its key's first in
      the scan; and a dropped key had a row that used up its attempts. */
  lemma ShortClaimTookAll(q: Queue, scan: seq<UnresolvedItem>, limit: nat, now: int)
    requires IsScan(q, scan)
    ensures var r := Claim(q, scan, limit, now);
            && (|r.1| < limit ==> forall i :: FirstOfKey(scan, i) && IsReady(scan[i].row, now) ==> scan[i] in r.1)
            && (forall k :: k in q && k !in r.0 ==> exists f :: RowAt(q, k.pk, f).Some? && IsPoison(RowAt(q, k.pk, f).value))
            && (forall x :: x in r.1 ==> RowKey(x.pk, x.firstSeen) in r.0)
  {
    ScanFacts(scan, limit, now);
    var r := Scan(scan, limit, now);
    if |r.claimed| < limit {
      forall i | FirstOfKey(scan, i) && IsReady(scan[i].row, now) ensures scan[i] in r.claimed {
        ScanReaches(scan, i, limit, now);
      }
    }
    Sorting.SortElements(r.claimed, SeenEarlier);
    forall x ensures x in Claim(q, scan, limit, now).1 <==> x in r.claimed {
      assert x in multiset(r.claimed) <==> x in multiset(Claim(q, scan, limit, now).1);
    }
    forall k | k in q && k.pk in r.dropped
      ensures exists f :: RowAt(q, k.pk, f).Some? && IsPoison(RowAt(q, k.pk, f).value)
    {
      var x :| x in scan && x.pk == k.pk && IsPoison(x.row);
      assert RowAt(q, k.pk, x.firstSeen) == Some(x.row);
    }
  }

  // ----- the runs -----

  /** Where a claimed item stands. */
  datatype Phase =
    | Claimed(item: UnresolvedItem)
    | CacheHit(item: UnresolvedItem)
    | Waiting(item: UnresolvedItem)
    | SnapshotStored(item: UnresolvedItem)
    | LookupFailed(item: UnresolvedItem)

  /** What the proofs remember of a key: its lookups and failures since its last enqueue, the
      one under way included, and over the whole run the rows it was looked up for and the
      rows that enqueues wrote for it, named by when they were first seen. */
  datatype Tally = Tally(lookups: nat, failures: nat, asked: seq<int>, written: seq<int>)

  /** The queue, the snapshots a read would find, the drain's items, and the enqueues that
      found no row and have yet to write one; for the proofs the keys for which a snapshot was
      ever stored, and the tallies. */
  datatype State = State(
    queue: Queue,
    snapshots: map<Key, PartResult>,
    phases: map<Key, Phase>,
    enqueuing: map<nat, Key>,
    stored: set<Key>,
    tallies: map<Key, Tally>
  )

  datatype Event =
    | CheckQueued(task: nat, pk: Key)
    | PutRow(task: nat, now: int)
    | OtherSnapshot(pk: Key, part: Option<PartResult>)
    | ClaimRows(scan: seq<UnresolvedItem>, limit: nat, now: int)
    | ReadCache(pk: Key)
    | DropCached(pk: Key)
    | Lookup(pk: Key, answer: Option<PartResult>)
    | DeleteRow(pk: Key)
    | MarkFailed(pk: Key, now: int)

  function TallyOf(s: State, pk: Key): Tally { if pk in s.tallies then s.tallies[pk] else Tally(0, 0, [], []) }

  function FailedNow(s: State, pk: Key): nat { if pk in s.phases && s.phases[pk].LookupFailed? then 1 else 0 }

  function AskedNow(s: State, pk: Key): nat {
    if pk in s.phases && (s.phases[pk].LookupFailed? || s.phases[pk].SnapshotStored?) then 1 else 0
  }

  function RowAt(q: Queue, pk: Key, firstSeen: int): Option<Row> {
    if RowKey(pk, firstSeen) in q then Some(q[RowKey(pk, firstSeen)]) else None
  }

  function PhasesOf(claimed: seq<UnresolvedItem>): map<Key, Phase> {
    if claimed == [] then map[]
    else
      var last := claimed[|claimed| - 1];
      PhasesOf(claimed[..|claimed| - 1])[last.pk := Claimed(last)]
  }

  function CheckStep(s: State, t: nat, pk: Key): Option<State> {
    if t in s.enqueuing then None
    else if HasRow(s.queue, pk) then Some(s)
    else Some(s.(enqueuing := s.enqueuing[t := pk]))
  }

  function AfterEnqueue(s: State, pk: Key, now: int): Tally {
    Tally(AskedNow(s, pk), FailedNow(s, pk), TallyOf(s, pk).asked, TallyOf(s, pk).written + [Stamp(now)])
  }

  /** The row is written whatever was written since the check. */
  function PutRowStep(s: State, t: nat, now: int): Option<State> {
    if t !in s.enqueuing then None
    else
      var pk := s.enqueuing[t];
      Some(s.(queue := s.queue[RowKey(pk, Stamp(now)) := FreshRow(now)], enqueuing := s.enqueuing - {t},
              tallies := s.tallies[pk := AfterEnqueue(s, pk, now)]))
  }

  function OtherSnapshotStep(s: State, pk: Key, part: Option<PartResult>): State {
    match part
    case Some(p) => s.(snapshots := s.snapshots[pk := p], stored := s.stored + {pk})
    case None => s.(snapshots := s.snapshots - {pk})
  }

  ghost function ClaimStep(s: State, scan: seq<UnresolvedItem>, limit: nat, now: int): Option<State> {
    if s.phases != map[] || !IsScan(s.queue, scan) then None
    else
      var r := Claim(s.queue, scan, limit, now);
      Some(s.(queue := r.0, phases := PhasesOf(r.1)))
  }

  /** A usable snapshot settles the key; a stored no-match does not. */
  function ReadCacheStep(s: State, pk: Key): Option<State> {
    if pk !in s.phases || !s.phases[pk].Claimed? then None
    else
      var item := s.phases[pk].item;
      var usable := pk in s.snapshots && !s.snapshots[pk].availability.NoMatch?;
      var next := if usable then CacheHit(item) else Waiting(item);
      Some(s.(phases := s.phases[pk := next]))
  }

  function DeleteStep(s: State, pk: Key): State {
    s.(queue := WithoutKey(s.queue, pk), phases := s.phases - {pk})
  }

  function RejectStep(s: State, pk: Key): State
    requires pk in s.phases
  {
    s.(queue := WithoutKey(s.queue, pk), phases := s.phases[pk := LookupFailed(s.phases[pk].item)])
  }

  function AfterLookup(s: State, pk: Key, failed: bool): Tally
    requires pk in s.phases
  {
    var t := TallyOf(s, pk);
    Tally(t.lookups + 1, t.failures + (if failed then 1 else 0), t.asked + [s.phases[pk].item.firstSeen], t.written)
  }

  function AnswerStep(s: State, pk: Key, target: Key, part: PartResult): State
    requires pk in s.phases
  {
    s.(tallies := s.tallies[pk := AfterLookup(s, pk, false)],
       snapshots := Written(s.snapshots, target, part), stored := s.stored + {target},
       phases := s.phases[pk := SnapshotStored(s.phases[pk].item)])
  }

  function NoAnswerStep(s: State, pk: Key): State
    requires pk in s.phases
  {
    s.(tallies := s.tallies[pk := AfterLookup(s, pk, true)],
       phases := s.phases[pk := LookupFailed(s.phases[pk].item)])
  }

  /** A key that does not parse is deleted and then fails; otherwise the provider is asked
      once, and an answer (a no-match too) is stored under the query's key. */
  function LookupStep(s: State, pk: Key, answer: Option<PartResult>, rebuild: Key -> Option<Key>): Option<State> {
    if pk !in s.phases || !s.phases[pk].Waiting? then None
    else
      match rebuild(pk)
      case None => Some(RejectStep(s, pk))
      case Some(target) =>
        match answer
        case Some(part) => Some(AnswerStep(s, pk, target, part))
        case None => Some(NoAnswerStep(s, pk))
  }

  function MarkStep(s: State, pk: Key, now: int): Option<State> {
    if pk !in s.phases || !s.phases[pk].LookupFailed? then None
    else Some(s.(queue := Marked(s.queue, s.phases[pk].item, now), phases := s.phases - {pk}))
  }

  ghost function Step(s: State, e: Event, rebuild: Key -> Option<Key>): Option<State> {
    match e
    case CheckQueued(t, pk) => CheckStep(s, t, pk)
    case PutRow(t, now) => PutRowStep(s, t, now)
    case OtherSnapshot(pk, part) => Some(OtherSnapshotStep(s, pk, part))
    case ClaimRows(scan, limit, now) => ClaimStep(s, scan, limit, now)
    case ReadCache(pk) => ReadCacheStep(s, pk)
    case DropCached(pk) => if pk in s.phases && s.phases[pk].CacheHit? then Some(DeleteStep(s, pk)) else None
    case Lookup(pk, answer) => LookupStep(s, pk, answer, rebuild)
    case DeleteRow(pk) => if pk in s.phases && s.phases[pk].SnapshotStored? then Some(DeleteStep(s, pk)) else None
    case MarkFailed(pk, now) => MarkStep(s, pk, now)
  }

  function Initial(): State { State(map[], map[], map[], map[], {}, map[]) }

  ghost function Run(events: seq<Event>, rebuild: Key -> Option<Key>): Option<State> {
    if events == [] then Some(Initial())
    else
      match Run(events[..|events| - 1], rebuild)
      case None => None
      case Some(s) => Step(s, events[|events| - 1], rebuild)
  }

  // ----- when a key has one row -----

  predicate WellFormed(pk: Key, rebuild: Key -> Option<Key>) { rebuild(pk) == Some(pk) }

  ghost predicate OneRow(q: Queue, pk: Key) {
    forall f, g :: RowAt(q, pk, f).Some? && RowAt(q, pk, g).Some? ==> f == g
  }

  ghost predicate AlwaysOneRow(events: seq<Event>, rebuild: Key -> Option<Key>, pk: Key) {
    && (Run(events, rebuild).Some? ==> OneRow(Run(events, rebuild).value.queue, pk))
    && (events != [] ==> AlwaysOneRow(events[..|events| - 1], rebuild, pk))
  }

  predicate WritesRow(s: State, e: Event, pk: Key) { e.PutRow? && e.task in s.enqueuing && s.enqueuing[e.task] == pk }

  /** A row that is written for the key falls into the second of every row the key has. */
  ghost predicate InSecond(s: State, e: Event, pk: Key) {
    WritesRow(s, e, pk) ==> forall f :: RowAt(s.queue, pk, f).Some? ==> f == Stamp(e.now)
  }

  ghost predicate Orderly(events: seq<Event>, rebuild: Key -> Option<Key>, pk: Key) {
    events == []
    || (var before := events[..|events| - 1];
        && Orderly(before, rebuild, pk)
        && (Run(before, rebuild).Some? ==> InSecond(Run(before, rebuild).value, events[|events| - 1], pk)))
  }

  /** An item being worked on has a row in the queue, and was not settled without a snapshot. */
  ghost predicate RowThere(s: State, pk: Key) {
    pk in s.phases ==>
      && RowAt(s.queue, pk, s.phases[pk].item.firstSeen).Some?
      && (s.phases[pk].CacheHit? || s.phases[pk].SnapshotStored? ==> pk in s.stored)
  }

  ghost predicate SnapshotsStored(s: State) { forall pk :: pk in s.snapshots ==> pk in s.stored }

  ghost predicate PhaseNames(s: State) { forall pk :: pk in s.phases ==> s.phases[pk].item.pk == pk }

  /** What holds in every run, however enqueues overlap. */
  ghost predicate Inv(s: State, rebuild: Key -> Option<Key>) {
    && SnapshotsStored(s) && PhaseNames(s)
    && forall pk :: WellFormed(pk, rebuild) ==> RowThere(s, pk)
  }

  lemma HasRowAt(q: Queue, pk: Key)
    ensures HasRow(q, pk) <==> exists f :: RowAt(q, pk, f).Some?
  {
    if k :| k in q && k.pk == pk {
      assert RowAt(q, pk, k.firstSeen).Some?;
    }
    if f :| RowAt(q, pk, f).Some? {
      assert RowKey(pk, f) in q;
    }
  }

  lemma {:induction false} PhasesOfClaimed(claimed: seq<UnresolvedItem>, pk: Key)
    ensures pk in PhasesOf(claimed) ==>
              PhasesOf(claimed)[pk].Claimed? && PhasesOf(claimed)[pk].item in claimed && PhasesOf(claimed)[pk].item.pk == pk
    decreases |claimed|
  {
    if claimed != [] {
      PhasesOfClaimed(claimed[..|claimed| - 1], pk);
    }
  }

  /** Rows that survive a claim are unchanged, and a claimed row survives it. */
  ghost predicate ClaimedFrom(q: Queue, q': Queue, phases: map<Key, Phase>, now: int, pk: Key) {
    && (forall f :: RowAt(q', pk, f).Some? ==> RowAt(q', pk, f) == RowAt(q, pk, f))
    && (pk in phases ==>
          && phases[pk].Claimed? && phases[pk].item.pk == pk && IsReady(phases[pk].item.row, now)
          && RowAt(q', pk, phases[pk].item.firstSeen) == Some(phases[pk].item.row))
  }

  lemma ClaimClaims(q: Queue, scan: seq<UnresolvedItem>, limit: nat, now: int, pk: Key)
    requires IsScan(q, scan)
    ensures var r := Claim(q, scan, limit, now); ClaimedFrom(q, r.0, PhasesOf(r.1), now, pk)
  {
    ClaimIsSound(q, scan, limit, now);
    ShortClaimTookAll(q, scan, limit, now);
    PhasesOfClaimed(Claim(q, scan, limit, now).1, pk);
  }

  lemma ClaimedNames(claimed: seq<UnresolvedItem>)
    ensures forall pk :: pk in PhasesOf(claimed) ==> PhasesOf(claimed)[pk].item.pk == pk
  {
    forall pk | pk in PhasesOf(claimed) ensures PhasesOf(claimed)[pk].item.pk == pk {
      PhasesOfClaimed(claimed, pk);
    }
  }

  lemma StepKeepsNames(s: State, e: Event, rebuild: Key -> Option<Key>)
    requires PhaseNames(s) && SnapshotsStored(s) && Step(s, e, rebuild).Some?
    ensures PhaseNames(Step(s, e, rebuild).value) && SnapshotsStored(Step(s, e, rebuild).value)
  {
    match e
    case ClaimRows(scan, limit, now) => ClaimedNames(Claim(s.queue, scan, limit, now).1);
    case Lookup(pk, answer) => LookupKeepsNames(s, pk, answer, rebuild);
    case CheckQueued(_, _) =>
    case PutRow(_, _) =>
    case OtherSnapshot(_, _) =>
    case _ =>
  }

  lemma LookupKeepsNames(s: State, pk: Key, answer: Option<PartResult>, rebuild: Key -> Option<Key>)
    requires PhaseNames(s) && SnapshotsStored(s) && LookupStep(s, pk, answer, rebuild).Some?
    ensures PhaseNames(LookupStep(s, pk, answer, rebuild).value) && SnapshotsStored(LookupStep(s, pk, answer, rebuild).value)
  {}

  lemma StepKeepsRowThere(s: State, e: Event, rebuild: Key -> Option<Key>, pk: Key)
    requires RowThere(s, pk) && SnapshotsStored(s) && Step(s, e, rebuild).Some? && WellFormed(pk, rebuild)
    ensures RowThere(Step(s, e, rebuild).value, pk)
  {
    match e
    case ClaimRows(scan, limit, now) => ClaimClaims(s.queue, scan, limit, now, pk);
    case CheckQueued(_, _) =>
    case PutRow(_, _) =>
    case OtherSnapshot(_, _) =>
    case Lookup(key, answer) => LookupKeepsRowThere(s, key, answer, rebuild, pk);
    case _ =>
  }

  lemma LookupKeepsRowThere(s: State, key: Key, answer: Option<PartResult>, rebuild: Key -> Option<Key>, pk: Key)
    requires RowThere(s, pk) && LookupStep(s, key, answer, rebuild).Some? && WellFormed(pk, rebuild)
    ensures RowThere(LookupStep(s, key, answer, rebuild).value, pk)
  {}

  lemma StepKeepsInv(s: State, e: Event, rebuild: Key -> Option<Key>)
    requires Inv(s, rebuild) && Step(s, e, rebuild).Some?
    ensures Inv(Step(s, e, rebuild).value, rebuild)
  {
    StepKeepsNames(s, e, rebuild);
    forall pk | WellFormed(pk, rebuild) ensures RowThere(Step(s, e, rebuild).value, pk) {
      StepKeepsRowThere(s, e, rebuild, pk);
    }
  }

  lemma {:induction false} RunKeepsInv(events: seq<Event>, rebuild: Key -> Option<Key>)
    requires Run(events, rebuild).Some?
    ensures Inv(Run(events, rebuild).value, rebuild)
    decreases |events|
  {
    if events != [] {
      RunKeepsInv(events[..|events| - 1], rebuild);
      StepKeepsInv(Run(events[..|events| - 1], rebuild).value, events[|events| - 1], rebuild);
    }
  }

  /** Where the rows of a key after a step come from. */
  lemma RowsAfter(s: State, e: Event, rebuild: Key -> Option<Key>, pk: Key, f: int)
    requires RowThere(s, pk) && PhaseNames(s) && Step(s, e, rebuild).Some?
    requires RowAt(Step(s, e, rebuild).value.queue, pk, f).Some?
    ensures RowAt(s.queue, pk, f).Some? || (WritesRow(s, e, pk) && f == Stamp(e.now))
  {
    match e
    case ClaimRows(scan, limit, now) => ClaimClaims(s.queue, scan, limit, now, pk);
    case CheckQueued(_, _) =>
    case PutRow(_, _) =>
    case OtherSnapshot(_, _) =>
    case Lookup(_, _) =>
    case _ =>
  }

  /** A step leaves a key with one row exactly when a row it writes falls into the second of
      the rows that are there. */
  lemma OneRowStep(s: State, e: Event, rebuild: Key -> Option<Key>, pk: Key)
    requires RowThere(s, pk) && PhaseNames(s) && Step(s, e, rebuild).Some? && OneRow(s.queue, pk)
    ensures OneRow(Step(s, e, rebuild).value.queue, pk) <==> InSecond(s, e, pk)
  {
    var s' := Step(s, e, rebuild).value;
    if InSecond(s, e, pk) {
      forall f, g | RowAt(s'.queue, pk, f).Some? && RowAt(s'.queue, pk, g).Some? ensures f == g {
        RowsAfter(s, e, rebuild, pk, f);
        RowsAfter(s, e, rebuild, pk, g);
      }
    } else {
      var f :| RowAt(s.queue, pk, f).Some? && f != Stamp(e.now);
      assert RowAt(s'.queue, pk, f).Some? && RowAt(s'.queue, pk, Stamp(e.now)).Some?;
    }
  }

  /** In every run a well-formed key never has two rows exactly when every row written for it
      falls into the second of the rows it has. */
  lemma {:induction false} OneRowIff(events: seq<Event>, rebuild: Key -> Option<Key>, pk: Key)
    requires Run(events, rebuild).Some? && WellFormed(pk, rebuild)
    ensures AlwaysOneRow(events, rebuild, pk) <==> Orderly(events, rebuild, pk)
    decreases |events|
  {
    if events != [] {
      var before := events[..|events| - 1];
      OneRowIff(before, rebuild, pk);
      RunKeepsInv(before, rebuild);
      if AlwaysOneRow(before, rebuild, pk) {
        OneRowStep(Run(before, rebuild).value, events[|events| - 1], rebuild, pk);
      }
    }
  }

  // ----- overlapping enqueues -----

  ghost predicate IsEnqueuing(s: State, pk: Key) { exists t :: t in s.enqueuing && s.enqueuing[t] == pk }

  /** No enqueue of the key checks while another has yet to write. */
  ghost predicate NoOverlap(events: seq<Event>, rebuild: Key -> Option<Key>, pk: Key) {
    events == []
    || (var before, e := events[..|events| - 1], events[|events| - 1];
        && NoOverlap(before, rebuild, pk)
        && (Run(before, rebuild).Some? && e.CheckQueued? && e.pk == pk ==> !IsEnqueuing(Run(before, rebuild).value, pk)))
  }

  /** The one enqueue under way has no row to meet. */
  ghost predicate Alone(s: State, pk: Key) {
    && (IsEnqueuing(s, pk) ==> forall f :: RowAt(s.queue, pk, f).None?)
    && (forall t, u :: t in s.enqueuing && u in s.enqueuing && s.enqueuing[t] == pk && s.enqueuing[u] == pk ==> t == u)
  }

  lemma CheckKeepsAlone(s: State, t: nat, key: Key, pk: Key)
    requires Alone(s, pk) && (key == pk ==> !IsEnqueuing(s, pk)) && CheckStep(s, t, key).Some?
    ensures Alone(CheckStep(s, t, key).value, pk)
  {
    HasRowAt(s.queue, key);
    var s' := CheckStep(s, t, key).value;
    if key != pk && IsEnqueuing(s', pk) {
      var u :| u in s'.enqueuing && s'.enqueuing[u] == pk;
      assert u in s.enqueuing && s.enqueuing[u] == pk;
    }
  }

  lemma NoNewEnqueue(s: State, e: Event, rebuild: Key -> Option<Key>)
    requires Step(s, e, rebuild).Some? && !e.CheckQueued?
    ensures Step(s, e, rebuild).value.enqueuing == if e.PutRow? then s.enqueuing - {e.task} else s.enqueuing
  {}

  lemma StepKeepsAlone(s: State, e: Event, rebuild: Key -> Option<Key>, pk: Key)
    requires RowThere(s, pk) && PhaseNames(s) && Step(s, e, rebuild).Some?
    requires Alone(s, pk) && (e.CheckQueued? && e.pk == pk ==> !IsEnqueuing(s, pk))
    ensures Alone(Step(s, e, rebuild).value, pk)
  {
    if e.CheckQueued? {
      CheckKeepsAlone(s, e.task, e.pk, pk);
    } else {
      NoNewEnqueue(s, e, rebuild);
      forall f | RowAt(Step(s, e, rebuild).value.queue, pk, f).Some? ensures RowAt(s.queue, pk, f).Some? || WritesRow(s, e, pk) {
        RowsAfter(s, e, rebuild, pk, f);
      }
      AloneAfter(s, Step(s, e, rebuild).value, e, pk);
    }
  }

  lemma AloneAfter(s: State, s': State, e: Event, pk: Key)
    requires Alone(s, pk) && s'.enqueuing == if e.PutRow? then s.enqueuing - {e.task} else s.enqueuing
    requires forall f :: RowAt(s'.queue, pk, f).Some? ==> RowAt(s.queue, pk, f).Some? || WritesRow(s, e, pk)
    ensures Alone(s', pk)
  {
    assert IsEnqueuing(s', pk) ==> IsEnqueuing(s, pk) && !WritesRow(s, e, pk);
  }

  /** Enqueues that do not overlap are orderly. */
  lemma {:induction false} NoOverlapIsOrderly(events: seq<Event>, rebuild: Key -> Option<Key>, pk: Key)
    requires Run(events, rebuild).Some? && WellFormed(pk, rebuild) && NoOverlap(events, rebuild, pk)
    ensures Orderly(events, rebuild, pk) && Alone(Run(events, rebuild).value, pk)
    decreases |events|
  {
    if events != [] {
      var before := events[..|events| - 1];
      NoOverlapIsOrderly(before, rebuild, pk);
      RunKeepsInv(before, rebuild);
      StepKeepsAlone(Run(before, rebuild).value, events[|events| - 1], rebuild, pk);
      assert WritesRow(Run(before, rebuild).value, events[|events| - 1], pk) ==> IsEnqueuing(Run(before, rebuild).value, pk);
    }
  }

  function TwoEnqueues(pk: Key, now: int, later: int): seq<Event> {
    [CheckQueued(0, pk), CheckQueued(1, pk), PutRow(0, now), PutRow(1, later)]
  }

  /** Overlapping enqueues of one key: both find no row, both write, and one row is left
      exactly when they write within one second. */
  lemma RacingEnqueues(pk: Key, now: int, later: int, rebuild: Key -> Option<Key>)
    ensures var end := Run(TwoEnqueues(pk, now, later), rebuild);
            && end.Some?
            && (OneRow(end.value.queue, pk) <==> Stamp(now) == Stamp(later))
  {
    var events := TwoEnqueues(pk, now, later);
    assert events[..3][..2] == events[..2] && events[..2][..1] == events[..1] && events[..1][..0] == [];
    var both := Initial().(enqueuing := map[0 := pk, 1 := pk]);
    assert Run(events[..1], rebuild) == Some(Initial().(enqueuing := map[0 := pk]));
    assert Run(events[..2], rebuild) == Some(both);
    var one := PutRowStep(both, 0, now).value;
    assert Run(events[..3], rebuild) == Some(one);
    var two := PutRowStep(one, 1, later).value;
    assert Run(events, rebuild) == Some(two);
    assert RowAt(two.queue, pk, Stamp(now)).Some? && RowAt(two.queue, pk, Stamp(later)).Some?;
  }

  // ----- what a step does to one key -----

  /** The moves of a key: none, a row written, taken up by a claim or passed over, all rows
      deleted, the cache read, the provider asked, the key rejected, or the failure marked. */
  datatype Move = Stay | NewRow(now: int) | Take | Leave | GoOn | Ask(failed: bool) | Reject | Mark(now: int)

  ghost predicate SameRows(q: Queue, q': Queue, pk: Key) { forall f :: RowAt(q', pk, f) == RowAt(q, pk, f) }

  ghost predicate NoRows(q: Queue, pk: Key) { forall f :: RowAt(q, pk, f).None? }

  /** One row is written; the others stay. */
  ghost predicate RowPut(q: Queue, q': Queue, pk: Key, at: int, row: Row) {
    forall f :: RowAt(q', pk, f) == if f == at then Some(row) else RowAt(q, pk, f)
  }

  predicate SamePhase(s: State, s': State, pk: Key) {
    (pk in s'.phases <==> pk in s.phases) && (pk in s.phases ==> s'.phases[pk] == s.phases[pk])
  }

  ghost predicate Moves(s: State, s': State, pk: Key, m: Move) {
    match m
    case Stay => SameRows(s.queue, s'.queue, pk) && SamePhase(s, s', pk) && TallyOf(s', pk) == TallyOf(s, pk)
    case NewRow(now) =>
      && RowPut(s.queue, s'.queue, pk, Stamp(now), FreshRow(now)) && SamePhase(s, s', pk)
      && TallyOf(s', pk) == AfterEnqueue(s, pk, now)
    case Take =>
      && pk !in s.phases && TallyOf(s', pk) == TallyOf(s, pk)
      && (forall f :: RowAt(s'.queue, pk, f).Some? ==> RowAt(s'.queue, pk, f) == RowAt(s.queue, pk, f))
      && (pk in s'.phases ==>
            && s'.phases[pk].Claimed? && s'.phases[pk].item.row.attempts < MAX_ATTEMPTS
            && RowAt(s'.queue, pk, s'.phases[pk].item.firstSeen) == Some(s'.phases[pk].item.row))
    case Leave => NoRows(s'.queue, pk) && pk !in s'.phases && TallyOf(s', pk) == TallyOf(s, pk)
    case GoOn =>
      && SameRows(s.queue, s'.queue, pk) && TallyOf(s', pk) == TallyOf(s, pk)
      && pk in s.phases && s.phases[pk].Claimed?
      && pk in s'.phases && (s'.phases[pk] == CacheHit(s.phases[pk].item) || s'.phases[pk] == Waiting(s.phases[pk].item))
    case Ask(failed) =>
      && SameRows(s.queue, s'.queue, pk) && pk in s.phases && s.phases[pk].Waiting?
      && var item := s.phases[pk].item;
      && pk in s'.phases && s'.phases[pk] == (if failed then LookupFailed(item) else SnapshotStored(item))
      && TallyOf(s', pk) == AfterLookup(s, pk, failed)
    case Reject =>
      && NoRows(s'.queue, pk) && TallyOf(s', pk) == TallyOf(s, pk)
      && pk in s.phases && s.phases[pk].Waiting? && pk in s'.phases && s'.phases[pk] == LookupFailed(s.phases[pk].item)
    case Mark(now) =>
      && pk in s.phases && s.phases[pk].LookupFailed? && pk !in s'.phases && TallyOf(s', pk) == TallyOf(s, pk)
      && var item := s.phases[pk].item;
      RowPut(s.queue, s'.queue, pk, item.firstSeen, Row(NextAttempt(item.row.attempts), Some(Stamp(now))))
  }

  lemma PutRowMoves(s: State, t: nat, now: int, pk: Key)
    requires PutRowStep(s, t, now).Some?
    ensures Moves(s, PutRowStep(s, t, now).value, pk, if s.enqueuing[t] == pk then NewRow(now) else Stay)
  {}

  lemma ClaimMoves(s: State, scan: seq<UnresolvedItem>, limit: nat, now: int, pk: Key)
    requires ClaimStep(s, scan, limit, now).Some?
    ensures Moves(s, ClaimStep(s, scan, limit, now).value, pk, Take)
  {
    ClaimClaims(s.queue, scan, limit, now, pk);
  }

  lemma DeleteMoves(s: State, key: Key, pk: Key)
    ensures Moves(s, DeleteStep(s, key), pk, if key == pk then Leave else Stay)
  {}

  lemma AskMoves(s: State, key: Key, target: Key, answer: Option<PartResult>, pk: Key)
    requires key in s.phases && s.phases[key].Waiting?
    ensures var s' := if answer.Some? then AnswerStep(s, key, target, answer.value) else NoAnswerStep(s, key);
            Moves(s, s', pk, if key == pk then Ask(answer.None?) else Stay)
  {}

  lemma LookupMoves(s: State, key: Key, answer: Option<PartResult>, rebuild: Key -> Option<Key>, pk: Key) returns (m: Move)
    requires LookupStep(s, key, answer, rebuild).Some?
    ensures Moves(s, LookupStep(s, key, answer, rebuild).value, pk, m)
    ensures !m.NewRow? && (m.Reject? ==> rebuild(pk).None?)
  {
    if rebuild(key).None? {
      m := if key == pk then Reject else Stay;
    } else {
      AskMoves(s, key, rebuild(key).value, answer, pk);
      m := if key == pk then Ask(answer.None?) else Stay;
    }
  }

  lemma MarkMoves(s: State, key: Key, now: int, pk: Key)
    requires MarkStep(s, key, now).Some? && s.phases[key].item.pk == key
    ensures Moves(s, MarkStep(s, key, now).value, pk, if key == pk then Mark(now) else Stay)
  {}

  lemma ReadMoves(s: State, key: Key, pk: Key)
    requires ReadCacheStep(s, key).Some?
    ensures Moves(s, ReadCacheStep(s, key).value, pk, if key == pk then GoOn else Stay)
  {}

  predicate IsEnqueueOrPut(e: Event) { e.CheckQueued? || e.PutRow? || e.OtherSnapshot? }

  lemma EnqueueMoves(s: State, e: Event, rebuild: Key -> Option<Key>, pk: Key) returns (m: Move)
    requires Step(s, e, rebuild).Some? && IsEnqueueOrPut(e)
    ensures Moves(s, Step(s, e, rebuild).value, pk, m) && !m.Reject?
    ensures if WritesRow(s, e, pk) then m == NewRow(e.now) else !m.NewRow?
  {
    m := Stay;
    if e.PutRow? {
      PutRowMoves(s, e.task, e.now, pk);
      m := if s.enqueuing[e.task] == pk then NewRow(e.now) else Stay;
    }
  }

  /** Every step makes one of the moves of every key. */
  lemma StepMoves(s: State, e: Event, rebuild: Key -> Option<Key>, pk: Key) returns (m: Move)
    requires Step(s, e, rebuild).Some? && PhaseNames(s)
    ensures Moves(s, Step(s, e, rebuild).value, pk, m) && (m.Reject? ==> rebuild(pk).None?)
    ensures if WritesRow(s, e, pk) then m == NewRow(e.now) else !m.NewRow?
  {
    if IsEnqueueOrPut(e) {
      m := EnqueueMoves(s, e, rebuild, pk);
    } else {
      match e
      case ClaimRows(scan, limit, now) => ClaimMoves(s, scan, limit, now, pk); m := Take;
      case ReadCache(key) => ReadMoves(s, key, pk); m := if key == pk then GoOn else Stay;
      case DropCached(key) => DeleteMoves(s, key, pk); m := if key == pk then Leave else Stay;
      case Lookup(key, answer) => m := LookupMoves(s, key, answer, rebuild, pk);
      case DeleteRow(key) => DeleteMoves(s, key, pk); m := if key == pk then Leave else Stay;
      case MarkFailed(key, now) => MarkMoves(s, key, now, pk); m := if key == pk then Mark(now) else Stay;
    }
  }

  // ----- lookups per row written -----

  function Times(log: seq<int>, f: int): nat { multiset(log)[f] }

  /** A lookup under way for the row. */
  function OpenAt(s: State, pk: Key, f: int): nat {
    if pk in s.phases && s.phases[pk].item.firstSeen == f then AskedNow(s, pk) else 0
  }

  /** Per row: ten lookups for each time it was written, less those a row or an item that is
      being worked on still has left. */
  ghost predicate RowBudget(s: State, pk: Key, f: int) {
    var spent, given := Times(TallyOf(s, pk).asked, f), MAX_ATTEMPTS * Times(TallyOf(s, pk).written, f);
    && spent <= given
    && (RowAt(s.queue, pk, f).Some? ==>
          spent + MAX_ATTEMPTS - RowAt(s.queue, pk, f).value.attempts <= given + OpenAt(s, pk, f))
    && (pk in s.phases && s.phases[pk].item.firstSeen == f ==>
          var attempts := s.phases[pk].item.row.attempts;
          attempts < MAX_ATTEMPTS && spent + MAX_ATTEMPTS - attempts <= given + OpenAt(s, pk, f))
  }

  lemma TimesMore(log: seq<int>, g: int, f: int)
    ensures Times(log + [g], f) == Times(log, f) + if f == g then 1 else 0
  {}

  lemma NewRowKeepsBudget(s: State, s': State, pk: Key, now: int, f: int)
    requires Moves(s, s', pk, NewRow(now)) && RowBudget(s, pk, f)
    ensures RowBudget(s', pk, f)
  {
    TimesMore(TallyOf(s, pk).written, Stamp(now), f);
  }

  lemma AskKeepsBudget(s: State, s': State, pk: Key, failed: bool, f: int)
    requires Moves(s, s', pk, Ask(failed)) && RowBudget(s, pk, f)
    ensures RowBudget(s', pk, f)
  {
    TimesMore(TallyOf(s, pk).asked, s.phases[pk].item.firstSeen, f);
  }

  lemma MoveKeepsBudget(s: State, s': State, pk: Key, m: Move, f: int)
    requires Moves(s, s', pk, m) && RowBudget(s, pk, f)
    ensures RowBudget(s', pk, f)
  {
    match m
    case NewRow(now) => NewRowKeepsBudget(s, s', pk, now, f);
    case Ask(failed) => AskKeepsBudget(s, s', pk, failed, f);
    case _ =>
  }

  lemma {:induction false} RunKeepsBudget(events: seq<Event>, rebuild: Key -> Option<Key>, pk: Key, f: int)
    requires Run(events, rebuild).Some?
    ensures RowBudget(Run(events, rebuild).value, pk, f)
    decreases |events|
  {
    if events != [] {
      var before, e := events[..|events| - 1], events[|events| - 1];
      RunKeepsBudget(before, rebuild, pk, f);
      RunKeepsInv(before, rebuild);
      var m := StepMoves(Run(before, rebuild).value, e, rebuild, pk);
      MoveKeepsBudget(Run(before, rebuild).value, Run(events, rebuild).value, pk, m, f);
    }
  }

  /** Every element as often as an attempt is allowed. */
  function AttemptsFor(log: seq<int>): (r: seq<int>)
    ensures |r| == MAX_ATTEMPTS * |log|
    ensures forall f :: multiset(r)[f] == MAX_ATTEMPTS * multiset(log)[f]
  {
    if log == [] then []
    else
      var f := log[|log| - 1];
      assert log == log[..|log| - 1] + [f];
      AttemptsFor(log[..|log| - 1]) + [f, f, f, f, f, f, f, f, f, f]
  }

  /** In every run, however enqueues overlap and whatever the clock says, a key is looked up at
      most ten times for each time a row is written for it by an enqueue; and so is each of its
      rows. */
  lemma TenLookupsPerRow(events: seq<Event>, rebuild: Key -> Option<Key>, pk: Key)
    requires Run(events, rebuild).Some?
    ensures var s := Run(events, rebuild).value;
            && |TallyOf(s, pk).asked| <= MAX_ATTEMPTS * |TallyOf(s, pk).written|
            && forall f :: Times(TallyOf(s, pk).asked, f) <= MAX_ATTEMPTS * Times(TallyOf(s, pk).written, f)
  {
    var s := Run(events, rebuild).value;
    forall f ensures Times(TallyOf(s, pk).asked, f) <= MAX_ATTEMPTS * Times(TallyOf(s, pk).written, f) {
      RunKeepsBudget(events, rebuild, pk, f);
    }
    var spent, given := multiset(TallyOf(s, pk).asked), multiset(AttemptsFor(TallyOf(s, pk).written));
    forall f ensures spent[f] <= given[f] {
      assert Times(TallyOf(s, pk).asked, f) <= MAX_ATTEMPTS * Times(TallyOf(s, pk).written, f);
    }
    assert given == spent + (given - spent);
  }

  // ----- lookups since the last enqueue -----

  /** What was spent since the last enqueue is within what the row and the item being worked on
      account for. */
  ghost predicate Bounded(s: State, pk: Key) {
    && OneRow(s.queue, pk) && TallyOf(s, pk).lookups <= MAX_ATTEMPTS
    && (forall f :: RowAt(s.queue, pk, f).Some? ==>
          var attempts := RowAt(s.queue, pk, f).value.attempts;
          attempts <= MAX_ATTEMPTS && TallyOf(s, pk).lookups <= attempts + AskedNow(s, pk))
    && (pk in s.phases ==>
          var item := s.phases[pk].item;
          && RowAt(s.queue, pk, item.firstSeen).Some? && item.row.attempts < MAX_ATTEMPTS
          && TallyOf(s, pk).lookups <= item.row.attempts + AskedNow(s, pk))
  }

  lemma MoveKeepsBounded(s: State, s': State, pk: Key, m: Move)
    requires Moves(s, s', pk, m) && Bounded(s, pk) && !m.Reject?
    requires m.NewRow? ==> forall f :: RowAt(s.queue, pk, f).Some? ==> f == Stamp(m.now)
    ensures Bounded(s', pk)
  {}

  lemma {:induction false} RunKeepsBounded(events: seq<Event>, rebuild: Key -> Option<Key>, pk: Key)
    requires Run(events, rebuild).Some? && WellFormed(pk, rebuild) && Orderly(events, rebuild, pk)
    ensures Bounded(Run(events, rebuild).value, pk)
    decreases |events|
  {
    if events != [] {
      var before, e := events[..|events| - 1], events[|events| - 1];
      RunKeepsBounded(before, rebuild, pk);
      RunKeepsInv(before, rebuild);
      var m := StepMoves(Run(before, rebuild).value, e, rebuild, pk);
      MoveKeepsBounded(Run(before, rebuild).value, Run(events, rebuild).value, pk, m);
    }
  }

  // ----- exact counts -----

  /** A row in the queue counts the lookups and failures since its enqueue, all failed but for
      the one under way, and an item being worked on has the count of its row. */
  ghost predicate Exact(s: State, pk: Key) {
    && OneRow(s.queue, pk)
    && (forall f :: RowAt(s.queue, pk, f).Some? ==>
          var attempts := RowAt(s.queue, pk, f).value.attempts;
          && attempts <= MAX_ATTEMPTS
          && TallyOf(s, pk).failures == attempts + FailedNow(s, pk)
          && TallyOf(s, pk).lookups == attempts + AskedNow(s, pk))
    && (pk in s.phases ==>
          var item := s.phases[pk].item;
          && item.row.attempts < MAX_ATTEMPTS && RowAt(s.queue, pk, item.firstSeen).Some?
          && RowAt(s.queue, pk, item.firstSeen).value.attempts == item.row.attempts)
  }

  ghost predicate AlwaysExact(events: seq<Event>, rebuild: Key -> Option<Key>, pk: Key) {
    && (Run(events, rebuild).Some? ==> Exact(Run(events, rebuild).value, pk))
    && (events != [] ==> AlwaysExact(events[..|events| - 1], rebuild, pk))
  }

  /** A row is written for a key in the second of its rows, and not while an item is being
      worked on that was attempted before. */
  ghost predicate Unattempted(s: State, e: Event, pk: Key) {
    InSecond(s, e, pk) && (WritesRow(s, e, pk) && pk in s.phases ==> s.phases[pk].item.row.attempts == 0)
  }

  ghost predicate Steady(events: seq<Event>, rebuild: Key -> Option<Key>, pk: Key) {
    events == []
    || (var before := events[..|events| - 1];
        && Steady(before, rebuild, pk)
        && (Run(before, rebuild).Some? ==> Unattempted(Run(before, rebuild).value, events[|events| - 1], pk)))
  }

  lemma MoveKeepsExact(s: State, s': State, pk: Key, m: Move)
    requires Moves(s, s', pk, m) && Exact(s, pk) && !m.Reject? && !m.NewRow?
    ensures Exact(s', pk)
  {}

  lemma NewRowExactIff(s: State, s': State, pk: Key, now: int)
    requires Moves(s, s', pk, NewRow(now)) && Exact(s, pk)
    ensures Exact(s', pk) <==>
              && (forall f :: RowAt(s.queue, pk, f).Some? ==> f == Stamp(now))
              && (pk in s.phases ==> s.phases[pk].item.row.attempts == 0)
  {
    assert RowAt(s'.queue, pk, Stamp(now)) == Some(FreshRow(now));
    if Exact(s', pk) {
      forall f | RowAt(s.queue, pk, f).Some? ensures f == Stamp(now) {
        assert RowAt(s'.queue, pk, f).Some?;
      }
    }
  }

  /** In every run a well-formed key's row counts its attempts exactly, step after step, if and
      only if every row written for it meets that condition. */
  lemma {:induction false} ExactIff(events: seq<Event>, rebuild: Key -> Option<Key>, pk: Key)
    requires Run(events, rebuild).Some? && WellFormed(pk, rebuild)
    ensures AlwaysExact(events, rebuild, pk) <==> Steady(events, rebuild, pk)
    decreases |events|
  {
    if events != [] {
      var before, e := events[..|events| - 1], events[|events| - 1];
      ExactIff(before, rebuild, pk);
      RunKeepsInv(before, rebuild);
      var s, s' := Run(before, rebuild).value, Run(events, rebuild).value;
      var m := StepMoves(s, e, rebuild, pk);
      if AlwaysExact(before, rebuild, pk) {
        if m.NewRow? {
          NewRowExactIff(s, s', pk, e.now);
        } else {
          MoveKeepsExact(s, s', pk, m);
        }
      }
    }
  }

  /** Enqueues that do not overlap meet it too. */
  lemma {:induction false} NoOverlapIsSteady(events: seq<Event>, rebuild: Key -> Option<Key>, pk: Key)
    requires Run(events, rebuild).Some? && WellFormed(pk, rebuild) && NoOverlap(events, rebuild, pk)
    ensures Steady(events, rebuild, pk)
    decreases |events|
  {
    if events != [] {
      var before, e := events[..|events| - 1], events[|events| - 1];
      NoOverlapIsSteady(before, rebuild, pk);
      NoOverlapIsOrderly(before, rebuild, pk);
      NoOverlapIsOrderly(events, rebuild, pk);
      RunKeepsInv(before, rebuild);
      var s := Run(before, rebuild).value;
      assert RowThere(s, pk);
      assert WritesRow(s, e, pk) ==> IsEnqueuing(s, pk);
    }
  }

  // ----- results -----

  /** In every run a well-formed key with orderly enqueues has at most one row and was looked up
      at most ten times since its last enqueue. */
  lemma BoundedRetries(events: seq<Event>, rebuild: Key -> Option<Key>, pk: Key)
    requires Run(events, rebuild).Some? && WellFormed(pk, rebuild) && Orderly(events, rebuild, pk)
    ensures var s := Run(events, rebuild).value;
            OneRow(s.queue, pk) && TallyOf(s, pk).lookups <= MAX_ATTEMPTS
  {
    RunKeepsBounded(events, rebuild, pk);
  }

  /** If they are steady too, as enqueues that do not overlap are, the row of a key that is not
      being worked on counts the lookups and the failures since the last enqueue. */
  lemma RowCountsAttempts(events: seq<Event>, rebuild: Key -> Option<Key>, pk: Key, f: int)
    requires Run(events, rebuild).Some? && WellFormed(pk, rebuild) && Steady(events, rebuild, pk)
    requires var s := Run(events, rebuild).value; pk !in s.phases && RowAt(s.queue, pk, f).Some?
    ensures var s := Run(events, rebuild).value;
            RowAt(s.queue, pk, f).value.attempts == TallyOf(s, pk).failures == TallyOf(s, pk).lookups
  {
    ExactIff(events, rebuild, pk);
  }

  /** Steps that keep the row of a well-formed key. */
  lemma RowStays(s: State, e: Event, rebuild: Key -> Option<Key>, pk: Key, f: int)
    requires Step(s, e, rebuild).Some? && WellFormed(pk, rebuild)
    requires !e.ClaimRows? && !((e.DropCached? || e.DeleteRow?) && e.pk == pk)
    requires RowAt(s.queue, pk, f).Some?
    ensures RowAt(Step(s, e, rebuild).value.queue, pk, f).Some?
  {}

  ghost predicate Leaves(s: State, e: Event, rebuild: Key -> Option<Key>, pk: Key) {
    && Step(s, e, rebuild).Some?
    && HasRow(s.queue, pk) && !HasRow(Step(s, e, rebuild).value.queue, pk)
  }

  /** The only steps that take a well-formed key out of the queue, however enqueues overlap:
      dropping it in a claim for a row that used up its attempts, or deleting it because a
      snapshot was stored for it. */
  lemma LeavesOnlySettled(events: seq<Event>, rebuild: Key -> Option<Key>, e: Event, pk: Key)
    requires Run(events, rebuild).Some? && Leaves(Run(events, rebuild).value, e, rebuild, pk)
    requires WellFormed(pk, rebuild)
    ensures var s := Run(events, rebuild).value;
            || (e.ClaimRows? && exists f :: RowAt(s.queue, pk, f).Some? && IsPoison(RowAt(s.queue, pk, f).value))
            || ((e.DropCached? || e.DeleteRow?) && e.pk == pk && pk in s.stored)
  {
    var s := Run(events, rebuild).value;
    RunKeepsInv(events, rebuild);
    assert RowThere(s, pk);
    HasRowAt(s.queue, pk);
    HasRowAt(Step(s, e, rebuild).value.queue, pk);
    var f :| RowAt(s.queue, pk, f).Some?;
    if e.ClaimRows? {
      ShortClaimTookAll(s.queue, e.scan, e.limit, e.now);
      assert RowKey(pk, f) in s.queue;
    } else if !((e.DropCached? || e.DeleteRow?) && e.pk == pk) {
      RowStays(s, e, rebuild, pk, f);
    }
  }

  /** With steady enqueues a key dropped in a claim had ten lookups since its last enqueue, all
      failed. */
  lemma DroppedAfterTenFailures(events: seq<Event>, rebuild: Key -> Option<Key>, e: Event, pk: Key)
    requires Run(events, rebuild).Some? && Leaves(Run(events, rebuild).value, e, rebuild, pk)
    requires WellFormed(pk, rebuild) && e.ClaimRows?
    requires Steady(events, rebuild, pk)
    ensures var s := Run(events, rebuild).value;
            TallyOf(s, pk).failures == MAX_ATTEMPTS && TallyOf(s, pk).lookups == MAX_ATTEMPTS
  {
    LeavesOnlySettled(events, rebuild, e, pk);
    ExactIff(events, rebuild, pk);
  }

  /** What the key of a queued query rebuilds to. */
  function RebuildWith(upper: string -> string): Key -> Option<Key> {
    (pk: Key) =>
      match PartKeys.QueryOf(pk.text)
      case None => None
      case Some(q) => Some(Key(PartKeys.PartKey(q, upper)))
  }

  /** The keys of parts with an ASCII name free of `#` are well-formed. */
  lemma PartKeysAreWellFormed(q: PartKeys.PartQuery, upper: string -> string)
    requires PartKeys.UpperCases(upper) && PartKeys.AsciiQuery(q)
    requires '#' !in q.mpn && !Text.IsBlank(q.mpn)
    ensures WellFormed(Key(PartKeys.PartKey(q, upper)), RebuildWith(upper))
  {
    PartKeys.KeyRoundTrip(q, upper);
  }
}
