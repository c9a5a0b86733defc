/** One round of the drain (`drain.rs`): claim, skip what is already settled, look the rest up,
    and mark the failures. */
module Drain {
  import opened Prelude
  import opened PartKeys
  import opened SnapshotCodec
  import opened PartStore
  import opened Worker
  import opened RetryQueue

  /** What the round knows: the snapshots read after the claim, the provider's answers, the
      clock, and upper-casing. */
  datatype Env = Env(cached: map<Key, PartResult>, lookup: PartQuery -> Answer, now: int, upper: string -> string)

  /** A usable snapshot is there; a stored no-match is looked up again. */
  predicate IsSettled(x: UnresolvedItem, env: Env) {
    x.pk in env.cached && !env.cached[x.pk].availability.NoMatch?
  }

  predicate IsMalformed(x: UnresolvedItem) { QueryOf(x.pk.text).None? }

  predicate IsAnswered(x: UnresolvedItem, env: Env) {
    QueryOf(x.pk.text).Some? && Answered(env.lookup(QueryOf(x.pk.text).value)).Some?
  }

  function Settled(xs: seq<UnresolvedItem>, env: Env): seq<UnresolvedItem> {
    Filter(xs, (x: UnresolvedItem) => IsSettled(x, env))
  }

  function ToLookUp(xs: seq<UnresolvedItem>, env: Env): seq<UnresolvedItem> {
    Filter(xs, (x: UnresolvedItem) => !IsSettled(x, env))
  }

  function Failed(xs: seq<UnresolvedItem>, env: Env): seq<UnresolvedItem> {
    Filter(xs, (x: UnresolvedItem) => !IsAnswered(x, env))
  }

  function DeleteAll(q: Queue, xs: seq<UnresolvedItem>): Queue {
    if xs == [] then q else WithoutKey(DeleteAll(q, xs[..|xs| - 1]), xs[|xs| - 1].pk)
  }

  /** Looking a key up deletes it when it was answered, and also when it is malformed. */
  function LookUpAll(q: Queue, xs: seq<UnresolvedItem>, env: Env): Queue {
    if xs == [] then q
    else
      var x := xs[|xs| - 1];
      var before := LookUpAll(q, xs[..|xs| - 1], env);
      if IsAnswered(x, env) || IsMalformed(x) then WithoutKey(before, x.pk) else before
  }

  function StoreAll(items: map<Key, Item>, xs: seq<UnresolvedItem>, env: Env): map<Key, Item> {
    if xs == [] then items
    else
      var x := xs[|xs| - 1];
      var before := StoreAll(items, xs[..|xs| - 1], env);
      if IsAnswered(x, env) then
        var q := QueryOf(x.pk.text).value;
        before[KeyOf(q, env.upper) := Encode(PartKey(q, env.upper), Answered(env.lookup(q)).value)]
      else before
  }

  /** The provider is asked once for every key that parses. */
  function AskedFor(xs: seq<UnresolvedItem>): seq<PartQuery> {
    if xs == [] then []
    else
      var q := QueryOf(xs[|xs| - 1].pk.text);
      AskedFor(xs[..|xs| - 1]) + if q.Some? then [q.value] else []
  }

  function MarkAll(q: Queue, xs: seq<UnresolvedItem>, now: int): Queue {
    if xs == [] then q else Marked(MarkAll(q, xs[..|xs| - 1], now), xs[|xs| - 1], now)
  }

  /** The queue after working off the claimed items. */
  function QueueAfter(q: Queue, claimed: seq<UnresolvedItem>, env: Env): Queue {
    var rest := ToLookUp(claimed, env);
    MarkAll(LookUpAll(DeleteAll(q, Settled(claimed, env)), rest, env), Failed(rest, env), env.now)
  }

  method SkipSettled(t: Tables, claimed: seq<UnresolvedItem>, env: Env)
    returns (toLookUp: seq<UnresolvedItem>, resolved: nat)
    modifies t`queue
    ensures toLookUp == ToLookUp(claimed, env) && resolved == |Settled(claimed, env)|
    ensures t.queue == DeleteAll(old(t.queue), Settled(claimed, env))
  {
    toLookUp, resolved := [], 0;
    assert claimed[..0] == [];
    for i := 0 to |claimed|
      invariant toLookUp == ToLookUp(claimed[..i], env) && resolved == |Settled(claimed[..i], env)|
      invariant t.queue == DeleteAll(old(t.queue), Settled(claimed[..i], env))
    {
      var item := claimed[i];
      SplitNext(claimed, i, env);
      if item.pk in env.cached && !env.cached[item.pk].availability.NoMatch? {
        DeleteNext(old(t.queue), Settled(claimed[..i], env), item);
        t.DeleteUnresolved(item.pk);
        resolved := resolved + 1;
      } else {
        toLookUp := toLookUp + [item];
      }
    }
    assert claimed[..|claimed|] == claimed;
  }

  lemma SplitNext(xs: seq<UnresolvedItem>, i: nat, env: Env)
    requires i < |xs|
    ensures Settled(xs[..i + 1], env) == if IsSettled(xs[i], env) then Settled(xs[..i], env) + [xs[i]] else Settled(xs[..i], env)
    ensures ToLookUp(xs[..i + 1], env) == if IsSettled(xs[i], env) then ToLookUp(xs[..i], env) else ToLookUp(xs[..i], env) + [xs[i]]
  {
    assert xs[..i + 1] == xs[..i] + [xs[i]];
    FilterConcat(xs[..i], [xs[i]], (x: UnresolvedItem) => IsSettled(x, env));
    FilterConcat(xs[..i], [xs[i]], (x: UnresolvedItem) => !IsSettled(x, env));
  }

  lemma DeleteNext(q: Queue, xs: seq<UnresolvedItem>, x: UnresolvedItem)
    ensures DeleteAll(q, xs + [x]) == WithoutKey(DeleteAll(q, xs), x.pk)
  {
    assert (xs + [x])[..|xs|] == xs;
  }

  method ResolveOne(t: Tables, p: Provider, item: UnresolvedItem, env: Env) returns (ok: bool)
    requires p.answers == env.lookup
    modifies t, p`asked
    ensures p.asked == old(p.asked) + AskedFor([item])
    ensures ok <==> IsAnswered(item, env)
    ensures t.queue == LookUpAll(old(t.queue), [item], env)
    ensures t.items == StoreAll(old(t.items), [item], env)
  {
    assert [item][..0] == [];
    var q := QueryOf(item.pk.text);
    if q.None? {
      t.DeleteUnresolved(item.pk);
      return false;
    }
    var part := ProcessOne(t, p, q.value, env.upper);
    if part.None? {
      return false;
    }
    t.DeleteUnresolved(item.pk);
    ok := true;
  }

  lemma LookUpNext(q: Queue, items: map<Key, Item>, xs: seq<UnresolvedItem>, i: nat, env: Env)
    requires i < |xs|
    ensures LookUpAll(q, xs[..i + 1], env) == LookUpAll(LookUpAll(q, xs[..i], env), [xs[i]], env)
    ensures StoreAll(items, xs[..i + 1], env) == StoreAll(StoreAll(items, xs[..i], env), [xs[i]], env)
    ensures AskedFor(xs[..i + 1]) == AskedFor(xs[..i]) + AskedFor([xs[i]])
    ensures Failed(xs[..i + 1], env) == Failed(xs[..i], env) + if IsAnswered(xs[i], env) then [] else [xs[i]]
  {
    assert xs[..i + 1][..i] == xs[..i] && xs[..i + 1] == xs[..i] + [xs[i]];
    assert [xs[i]][..0] == [];
    FilterConcat(xs[..i], [xs[i]], (x: UnresolvedItem) => !IsAnswered(x, env));
  }

  method LookUp(t: Tables, p: Provider, xs: seq<UnresolvedItem>, env: Env) returns (failed: seq<UnresolvedItem>)
    requires p.answers == env.lookup
    modifies t, p`asked
    ensures p.asked == old(p.asked) + AskedFor(xs)
    ensures failed == Failed(xs, env)
    ensures t.queue == LookUpAll(old(t.queue), xs, env)
    ensures t.items == StoreAll(old(t.items), xs, env)
  {
    failed := [];
    assert xs[..0] == [];
    for i := 0 to |xs|
      invariant failed == Failed(xs[..i], env)
      invariant t.queue == LookUpAll(old(t.queue), xs[..i], env)
      invariant t.items == StoreAll(old(t.items), xs[..i], env)
      invariant p.asked == old(p.asked) + AskedFor(xs[..i])
    {
      LookUpNext(old(t.queue), old(t.items), xs, i, env);
      var ok := ResolveOne(t, p, xs[i], env);
      if !ok {
        failed := failed + [xs[i]];
      }
    }
    assert xs[..|xs|] == xs;
  }

  method MarkFailed(t: Tables, failed: seq<UnresolvedItem>, now: int)
    modifies t`queue
    ensures t.queue == MarkAll(old(t.queue), failed, now)
  {
    assert failed[..0] == [];
    for i := 0 to |failed|
      invariant t.queue == MarkAll(old(t.queue), failed[..i], now)
    {
      assert failed[..i + 1][..i] == failed[..i];
      t.MarkAttempted(failed[i], now);
    }
    assert failed[..|failed|] == failed;
  }

  method WorkOff(t: Tables, p: Provider, claimed: seq<UnresolvedItem>, env: Env) returns (resolved: nat)
    requires p.answers == env.lookup
    modifies t, p`asked
    ensures p.asked == old(p.asked) + AskedFor(ToLookUp(claimed, env))
    ensures t.queue == QueueAfter(old(t.queue), claimed, env)
    ensures t.items == StoreAll(old(t.items), ToLookUp(claimed, env), env)
    ensures resolved + |Failed(ToLookUp(claimed, env), env)| == |claimed|
  {
    var toLookUp, settled := SkipSettled(t, claimed, env);
    var failed := LookUp(t, p, toLookUp, env);
    SettledOrNot(claimed, env);
    FailedAtMost(toLookUp, env);
    resolved := settled + (|toLookUp| - |failed|);
    MarkFailed(t, failed, env.now);
  }

  /** A round over a scan of the queue, from the claim to the marks. */
  method RunOnce(t: Tables, p: Provider, scan: seq<UnresolvedItem>, limit: nat, now: int, upper: string -> string)
    returns (resolved: nat)
    modifies t, p`asked
    ensures var claim := Claim(old(t.queue), scan, limit, now);
            var env := Env(SnapshotsOf(old(t.items), KeySet(KeysOf(claim.1))), p.answers, now, upper);
            && t.queue == QueueAfter(claim.0, claim.1, env)
            && t.items == StoreAll(old(t.items), ToLookUp(claim.1, env), env)
            && p.asked == old(p.asked) + AskedFor(ToLookUp(claim.1, env))
            && resolved + |Failed(ToLookUp(claim.1, env), env)| == |claim.1|
  {
    var claimed := t.ClaimUnresolved(scan, limit, now);
    if claimed == [] {
      return 0;
    }
    var cached := t.GetMany(KeySet(KeysOf(claimed)));
    resolved := WorkOff(t, p, claimed, Env(cached, p.answers, now, upper));
  }

  function KeysOf(xs: seq<UnresolvedItem>): (keys: seq<Key>)
    ensures |keys| == |xs| && forall i :: 0 <= i < |xs| ==> keys[i] == xs[i].pk
  {
    seq(|xs|, i requires 0 <= i < |xs| => xs[i].pk)
  }

  lemma {:induction false} FailedAtMost(xs: seq<UnresolvedItem>, env: Env)
    ensures |Failed(xs, env)| <= |xs|
  {
    if xs != [] {
      FailedAtMost(xs[1..], env);
    }
  }

  lemma {:induction false} SettledOrNot(xs: seq<UnresolvedItem>, env: Env)
    ensures |Settled(xs, env)| + |ToLookUp(xs, env)| == |xs|
  {
    if xs != [] {
      SettledOrNot(xs[1..], env);
    }
  }

  // ----- what a round means for one key -----

  lemma {:induction false} DeleteAllAt(q: Queue, xs: seq<UnresolvedItem>, pk: Key, f: int)
    ensures RowAt(DeleteAll(q, xs), pk, f) == if exists x :: x in xs && x.pk == pk then None else RowAt(q, pk, f)
    decreases |xs|
  {
    if xs != [] {
      var n := |xs| - 1;
      DeleteAllAt(q, xs[..n], pk, f);
      assert forall x :: x in xs <==> x in xs[..n] || x == xs[n];
    }
  }

  lemma {:induction false} LookUpAllAt(q: Queue, xs: seq<UnresolvedItem>, env: Env, pk: Key, f: int)
    ensures RowAt(LookUpAll(q, xs, env), pk, f)
            == if exists x :: x in xs && x.pk == pk && (IsAnswered(x, env) || IsMalformed(x)) then None else RowAt(q, pk, f)
    decreases |xs|
  {
    if xs != [] {
      var n := |xs| - 1;
      LookUpAllAt(q, xs[..n], env, pk, f);
      assert forall x :: x in xs <==> x in xs[..n] || x == xs[n];
    }
  }

  lemma {:induction false} MarkAllAt(q: Queue, xs: seq<UnresolvedItem>, now: int, pk: Key, f: int)
    requires DistinctKeys(xs)
    ensures forall x :: x in xs && x.pk == pk ==>
              RowAt(MarkAll(q, xs, now), pk, f)
              == if x.firstSeen == f then Some(Row(NextAttempt(x.row.attempts), Some(Stamp(now)))) else RowAt(q, pk, f)
    ensures (forall x :: x in xs ==> x.pk != pk) ==> RowAt(MarkAll(q, xs, now), pk, f) == RowAt(q, pk, f)
    decreases |xs|
  {
    if xs != [] {
      var n := |xs| - 1;
      MarkAllAt(q, xs[..n], now, pk, f);
      assert forall x :: x in xs <==> x in xs[..n] || x == xs[n];
      assert forall x :: x in xs[..n] ==> x.pk != xs[n].pk;
    }
  }

  lemma {:induction false} FilterDistinct(xs: seq<UnresolvedItem>, keep: UnresolvedItem -> bool)
    requires DistinctKeys(xs)
    ensures DistinctKeys(Filter(xs, keep))
    ensures forall x :: x in Filter(xs, keep) ==> x in xs
  {
    if xs != [] {
      FilterDistinct(xs[1..], keep);
      assert forall x :: x in xs[1..] ==> x in xs && x.pk != xs[0].pk;
    }
  }

  lemma SameKeySameItem(claimed: seq<UnresolvedItem>, x: UnresolvedItem, y: UnresolvedItem)
    requires DistinctKeys(claimed) && x in claimed && y in claimed && x.pk == y.pk
    ensures x == y
  {}

  /** Where a claimed item ends up, in each of the three lists. */
  lemma Placed(claimed: seq<UnresolvedItem>, env: Env, x: UnresolvedItem)
    ensures x in Settled(claimed, env) <==> x in claimed && IsSettled(x, env)
    ensures x in ToLookUp(claimed, env) <==> x in claimed && !IsSettled(x, env)
    ensures x in Failed(ToLookUp(claimed, env), env) <==> x in claimed && !IsSettled(x, env) && !IsAnswered(x, env)
  {
    FilterMembers(claimed, (y: UnresolvedItem) => IsSettled(y, env), x);
    FilterMembers(claimed, (y: UnresolvedItem) => !IsSettled(y, env), x);
    FilterMembers(ToLookUp(claimed, env), (y: UnresolvedItem) => !IsAnswered(y, env), x);
  }

  /** After a round a claimed key's rows are gone when it was settled or answered; otherwise
      the claimed row counts one more attempt, and for a malformed key, whose rows are deleted
      first, that row alone comes back. */
  lemma RoundForClaimed(q: Queue, claimed: seq<UnresolvedItem>, env: Env, x: UnresolvedItem, f: int)
    requires DistinctKeys(claimed) && x in claimed
    ensures RowAt(QueueAfter(q, claimed, env), x.pk, f)
            == if IsSettled(x, env) || IsAnswered(x, env) then None
               else if f == x.firstSeen then Some(Row(NextAttempt(x.row.attempts), Some(Stamp(env.now))))
               else if IsMalformed(x) then None
               else RowAt(q, x.pk, f)
  {
    var settled, rest := Settled(claimed, env), ToLookUp(claimed, env);
    forall y ensures (y in settled ==> y in claimed) && (y in rest ==> y in claimed) && (y in Failed(rest, env) ==> y in claimed) {
      Placed(claimed, env, y);
    }
    Placed(claimed, env, x);
    forall y | y in claimed && y.pk == x.pk ensures y == x {
      SameKeySameItem(claimed, x, y);
    }
    FilterDistinct(claimed, (y: UnresolvedItem) => !IsSettled(y, env));
    FilterDistinct(rest, (y: UnresolvedItem) => !IsAnswered(y, env));
    var deleted := DeleteAll(q, settled);
    DeleteAllAt(q, settled, x.pk, f);
    LookUpAllAt(deleted, rest, env, x.pk, f);
    MarkAllAt(LookUpAll(deleted, rest, env), Failed(rest, env), env.now, x.pk, f);
  }

  /** Other keys are left alone. */
  lemma RoundForOthers(q: Queue, claimed: seq<UnresolvedItem>, env: Env, pk: Key, f: int)
    requires DistinctKeys(claimed) && forall x :: x in claimed ==> x.pk != pk
    ensures RowAt(QueueAfter(q, claimed, env), pk, f) == RowAt(q, pk, f)
  {
    var settled, rest := Settled(claimed, env), ToLookUp(claimed, env);
    forall y ensures (y in settled ==> y in claimed) && (y in rest ==> y in claimed) && (y in Failed(rest, env) ==> y in claimed) {
      Placed(claimed, env, y);
    }
    FilterDistinct(claimed, (y: UnresolvedItem) => !IsSettled(y, env));
    FilterDistinct(rest, (y: UnresolvedItem) => !IsAnswered(y, env));
    var deleted := DeleteAll(q, settled);
    DeleteAllAt(q, settled, pk, f);
    LookUpAllAt(deleted, rest, env, pk, f);
    MarkAllAt(LookUpAll(deleted, rest, env), Failed(rest, env), env.now, pk, f);
  }

  // ----- a round as steps of the retry queue -----

  /** The provider's answer in the round. */
  function AnswerTo(x: UnresolvedItem, env: Env): Option<PartResult> {
    match QueryOf(x.pk.text)
    case None => None
    case Some(q) => Answered(env.lookup(q))
  }

  /** The state machine's steps for one claimed item, from its cache read to its last write. */
  function ItemSteps(s: State, x: UnresolvedItem, env: Env): State
    requires x.pk in s.phases && s.phases[x.pk] == Claimed(x)
  {
    var read := ReadCacheStep(s, x.pk).value;
    if read.phases[x.pk].CacheHit? then DeleteStep(read, x.pk)
    else
      var looked := LookupStep(read, x.pk, AnswerTo(x, env), RebuildWith(env.upper)).value;
      if looked.phases[x.pk].SnapshotStored? then DeleteStep(looked, x.pk) else MarkStep(looked, x.pk, env.now).value
  }

  /** What those steps come to. */
  lemma ItemStepsQueue(s: State, x: UnresolvedItem, env: Env)
    requires x.pk in s.phases && s.phases[x.pk] == Claimed(x) && env.cached == s.snapshots
    ensures x.pk !in ItemSteps(s, x, env).phases
    ensures ItemSteps(s, x, env).queue
            == if IsSettled(x, env) || IsAnswered(x, env) then WithoutKey(s.queue, x.pk)
               else Marked(if IsMalformed(x) then WithoutKey(s.queue, x.pk) else s.queue, x, env.now)
  {
    var read := ReadCacheStep(s, x.pk).value;
    assert read.queue == s.queue;
    if !IsSettled(x, env) {
      LookupOutcome(read, x, env);
    }
  }

  lemma LookupOutcome(read: State, x: UnresolvedItem, env: Env)
    requires x.pk in read.phases && read.phases[x.pk] == Waiting(x)
    ensures var looked := LookupStep(read, x.pk, AnswerTo(x, env), RebuildWith(env.upper)).value;
            && x.pk in looked.phases
            && looked.phases[x.pk] == (if IsAnswered(x, env) then SnapshotStored(x) else LookupFailed(x))
            && looked.queue == (if IsMalformed(x) then WithoutKey(read.queue, x.pk) else read.queue)
  {}

  /** For every claimed item the round does to its key's rows what the steps do. */
  lemma RoundIsItsSteps(s: State, claimed: seq<UnresolvedItem>, env: Env, x: UnresolvedItem, f: int)
    requires DistinctKeys(claimed) && x in claimed
    requires x.pk in s.phases && s.phases[x.pk] == Claimed(x) && env.cached == s.snapshots
    ensures RowAt(ItemSteps(s, x, env).queue, x.pk, f) == RowAt(QueueAfter(s.queue, claimed, env), x.pk, f)
    ensures x.pk !in ItemSteps(s, x, env).phases
  {
    RoundForClaimed(s.queue, claimed, env, x, f);
    ItemStepsQueue(s, x, env);
  }
}
