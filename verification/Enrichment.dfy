/** Enriching a batch of lines (`lib.rs`): one cache read and at most one lookup per distinct
    part key, and one result per line. */
module Enrichment {
  import opened Prelude
  import opened PartKeys
  import opened SnapshotCodec
  import opened PartStore
  import opened Worker

  const NOMATCH_RETRY_AFTER: int := 300_000

  datatype Source = FromCache | FromLookup

  datatype EnrichResult = EnrichResult(
    inputIndex: nat,
    providerPartId: Option<string>,
    matchedMpn: Option<string>,
    matchedManufacturer: Option<string>,
    matchStatus: MatchStatus,
    totalAvail: Int64,
    availability: Availability,
    lifecycle: Lifecycle,
    factoryLeadDays: Option<Int32>,
    htsCode: Option<string>,
    countryOfOrigin: Option<string>,
    category: Option<string>,
    fetchedAt: Option<string>,
    source: Option<Source>
  )

  function NoMpnResult(i: nat): EnrichResult {
    EnrichResult(i, None, None, None, NoneMatched, 0, NoMatch, Unknown, None, None, None, None, None, None)
  }

  function PendingResult(i: nat): EnrichResult {
    EnrichResult(i, None, None, None, PendingMatch, 0, PendingLookup, Unknown, None, None, None, None, None, None)
  }

  function PartToEnrich(i: nat, p: PartResult, source: Source): EnrichResult {
    EnrichResult(i, p.providerPartId, p.matchedMpn, p.matchedManufacturer, p.matchStatus, p.totalAvail,
                 p.availability, p.lifecycle, p.factoryLeadDays, p.htsCode, p.countryOfOrigin, p.category,
                 Some(p.fetchedAt), Some(source))
  }

  /** The surroundings of a call: upper-casing, the clock, reading a time (RFC 3339), and the
      provider's answer to each query. */
  datatype Env = Env(
    upper: string -> string,
    now: int,
    parseTime: string -> Option<int>,
    lookup: PartQuery -> Answer
  )

  // ----- what each line should get -----

  predicate HasMpn(q: PartQuery, env: Env) { NormalizeMpn(q.mpn, env.upper) != [] }

  /** The part key of each line, None for a line without an MPN. */
  function LineKeys(lines: seq<PartQuery>, env: Env): (keys: seq<Option<Key>>)
    ensures |keys| == |lines|
    ensures forall i :: 0 <= i < |lines| ==>
              keys[i] == if HasMpn(lines[i], env) then Some(KeyOf(lines[i], env.upper)) else None
  {
    seq(|lines|, i requires 0 <= i < |lines| =>
      if HasMpn(lines[i], env) then Some(KeyOf(lines[i], env.upper)) else None)
  }

  /** The lines with a key, in order. */
  function IndicesOf(keys: seq<Option<Key>>, pk: Key): (idxs: seq<nat>)
    ensures forall a :: 0 <= a < |idxs| ==> idxs[a] < |keys| && keys[idxs[a]] == Some(pk)
    ensures forall a, b :: 0 <= a < b < |idxs| ==> idxs[a] < idxs[b]
    ensures forall j :: 0 <= j < |keys| && keys[j] == Some(pk) ==> j in idxs
  {
    if keys == [] then []
    else
      var n := |keys| - 1;
      IndicesOf(keys[..n], pk) + if keys[n] == Some(pk) then [n] else []
  }

  /** A time that does not parse or lies in the future counts as stale. */
  predicate IsStale(fetchedAt: string, env: Env) {
    var t := env.parseTime(fetchedAt);
    t.None? || env.now - t.value < 0 || env.now - t.value >= NOMATCH_RETRY_AFTER
  }

  predicate IsStaleNoMatch(p: PartResult, env: Env) { p.availability.NoMatch? && IsStale(p.fetchedAt, env) }

  /** What the batch read returns. */
  function ReadCache(lines: seq<PartQuery>, items: map<Key, Item>, force: bool, env: Env): map<Key, PartResult> {
    if force then map[] else SnapshotsOf(items, BatchKeys(lines, env))
  }

  function BatchKeys(lines: seq<PartQuery>, env: Env): set<Key> {
    set k | k in LineKeys(lines, env) && k.Some? :: k.value
  }

  /** The provider's answer for a key of the batch: the first line with the key lends its
      query to all of them. */
  function LiveAnswer(lines: seq<PartQuery>, pk: Key, env: Env): Option<PartResult> {
    var idxs := IndicesOf(LineKeys(lines, env), pk);
    if idxs == [] then None else Answered(env.lookup(lines[idxs[0]]))
  }

  /** The answer all lines with one key share. */
  datatype KeyResult = Answer(part: PartResult, source: Source) | Pending

  function ResultOf(i: nat, r: KeyResult): EnrichResult {
    match r
    case Answer(part, source) => PartToEnrich(i, part, source)
    case Pending => PendingResult(i)
  }

  function LiveResult(live: Option<PartResult>): KeyResult {
    match live
    case Some(part) => Answer(part, FromLookup)
    case None => Pending
  }

  predicate IsHit(cached: map<Key, PartResult>, pk: Key, env: Env) {
    pk in cached && !IsStaleNoMatch(cached[pk], env)
  }

  /** A usable cached answer, else pending in cache-only mode, else the live answer. */
  function KeyAnswer(cached: map<Key, PartResult>, pk: Key, cacheOnly: bool, live: Option<PartResult>, env: Env): KeyResult {
    if IsHit(cached, pk, env) then Answer(cached[pk], FromCache)
    else if cacheOnly then Pending
    else LiveResult(live)
  }

  /** What line `i` gets: from its own key's answer, or the no-MPN result. */
  function LineResult(lines: seq<PartQuery>, i: nat, items: map<Key, Item>, force: bool, cacheOnly: bool, env: Env): EnrichResult
    requires i < |lines|
  {
    if !HasMpn(lines[i], env) then NoMpnResult(i)
    else
      var pk := KeyOf(lines[i], env.upper);
      ResultOf(i, KeyAnswer(ReadCache(lines, items, force, env), pk, cacheOnly, LiveAnswer(lines, pk, env), env))
  }

  function Missed(keys: set<Key>, cached: map<Key, PartResult>, env: Env): set<Key> {
    set pk | pk in keys && !IsHit(cached, pk, env)
  }

  /** Missed keys whose lookup failed. */
  function FailedKeys(missed: set<Key>, lines: seq<PartQuery>, env: Env): set<Key> {
    set pk | pk in missed && LiveAnswer(lines, pk, env).None?
  }

  /** The stored items after the answers `live` were written over `items`. */
  ghost predicate StoredOver(items: map<Key, Item>, live: map<Key, PartResult>, items': map<Key, Item>) {
    forall k {:trigger ItemAt(items', k)} :: ItemAt(items', k) == if k in live then Some(Encode(k.text, live[k])) else ItemAt(items, k)
  }

  // ----- the steps of the call -----

  type Rows = seq<Option<EnrichResult>>

  /** The groups of the lines with these keys. */
  ghost predicate Grouped(keys: seq<Option<Key>>, indices: map<Key, seq<nat>>) {
    forall pk ::
      && (pk in indices <==> IndicesOf(keys, pk) != [])
      && (pk in indices ==> indices[pk] == IndicesOf(keys, pk))
  }

  /** Each group's query is that of its first line. */
  ghost predicate Queried(lines: seq<PartQuery>, indices: map<Key, seq<nat>>, queries: map<Key, PartQuery>) {
    && queries.Keys == indices.Keys
    && forall pk :: pk in indices ==>
         indices[pk] != [] && indices[pk][0] < |lines| && queries[pk] == lines[indices[pk][0]]
  }

  /** Rows of the first `n` lines after grouping: only those without an MPN are filled. */
  ghost predicate NoMpnRows(keys: seq<Option<Key>>, rows: Rows, n: nat) {
    && |rows| == |keys|
    && forall j :: 0 <= j < |rows| ==> rows[j] == if j < n && keys[j].None? then Some(NoMpnResult(j)) else None
  }

  method Group(lines: seq<PartQuery>, env: Env)
    returns (rows: Rows, indices: map<Key, seq<nat>>, queries: map<Key, PartQuery>)
    ensures NoMpnRows(LineKeys(lines, env), rows, |lines|)
    ensures Grouped(LineKeys(lines, env), indices) && Queried(lines, indices, queries)
  {
    rows := seq(|lines|, i => None);
    indices, queries := map[], map[];
    ghost var keys := LineKeys(lines, env);
    for i := 0 to |lines|
      invariant NoMpnRows(keys, rows, i)
      invariant Grouped(keys[..i], indices) && Queried(lines, indices, queries)
    {
      assert keys[..i + 1][..i] == keys[..i];
      if !HasMpn(lines[i], env) {
        SkipLine(keys[..i + 1], indices);
        rows := rows[i := Some(NoMpnResult(i))];
      } else {
        var pk := KeyOf(lines[i], env.upper);
        AddLine(keys[..i + 1], indices, pk);
        indices, queries := AddToGroup(lines, indices, queries, pk, i);
      }
    }
    assert keys[..|lines|] == keys;
  }

  method AddToGroup(lines: seq<PartQuery>, indices: map<Key, seq<nat>>, queries: map<Key, PartQuery>, pk: Key, i: nat)
    returns (indices': map<Key, seq<nat>>, queries': map<Key, PartQuery>)
    requires i < |lines| && Queried(lines, indices, queries)
    ensures indices' == indices[pk := if pk in indices then indices[pk] + [i] else [i]]
    ensures Queried(lines, indices', queries')
  {
    queries' := queries;
    if pk in indices {
      indices' := indices[pk := indices[pk] + [i]];
    } else {
      indices' := indices[pk := [i]];
      queries' := queries'[pk := lines[i]];
    }
  }

  lemma SkipLine(keys: seq<Option<Key>>, indices: map<Key, seq<nat>>)
    requires keys != [] && keys[|keys| - 1].None? && Grouped(keys[..|keys| - 1], indices)
    ensures Grouped(keys, indices)
  {
    forall pk ensures IndicesOf(keys, pk) == IndicesOf(keys[..|keys| - 1], pk) {}
  }

  lemma AddLine(keys: seq<Option<Key>>, indices: map<Key, seq<nat>>, pk: Key)
    requires keys != [] && keys[|keys| - 1] == Some(pk) && Grouped(keys[..|keys| - 1], indices)
    ensures var n := |keys| - 1;
            Grouped(keys, indices[pk := if pk in indices then indices[pk] + [n] else [n]])
  {
    var n := |keys| - 1;
    forall k ensures IndicesOf(keys, k) == IndicesOf(keys[..n], k) + if k == pk then [n] else [] {}
  }

  method FillRows(rows: Rows, idxs: seq<nat>, result: nat -> EnrichResult) returns (r: Rows)
    requires forall a :: 0 <= a < |idxs| ==> idxs[a] < |rows|
    ensures |r| == |rows|
    ensures forall j :: 0 <= j < |rows| ==> r[j] == if j in idxs then Some(result(j)) else rows[j]
  {
    r := rows;
    for a := 0 to |idxs|
      invariant |r| == |rows|
      invariant forall j :: 0 <= j < |rows| ==> r[j] == if j in idxs[..a] then Some(result(j)) else rows[j]
    {
      r := r[idxs[a] := Some(result(idxs[a]))];
    }
    assert idxs[..|idxs|] == idxs;
  }

  /** The rows when the lines of the keys in `filled`, and those without an MPN, are done. */
  ghost predicate RowsAre(keys: seq<Option<Key>>, rows: Rows, filled: map<Key, KeyResult>) {
    && |rows| == |keys|
    && forall j :: 0 <= j < |rows| ==>
         rows[j] == match keys[j]
                    case None => Some(NoMpnResult(j))
                    case Some(pk) => if pk in filled then Some(ResultOf(j, filled[pk])) else None
  }

  method FillKey(ghost keys: seq<Option<Key>>, rows: Rows, idxs: seq<nat>, pk: Key, r: KeyResult, ghost filled: map<Key, KeyResult>)
    returns (rows': Rows)
    requires RowsAre(keys, rows, filled) && idxs == IndicesOf(keys, pk)
    ensures RowsAre(keys, rows', filled[pk := r])
  {
    rows' := FillRows(rows, idxs, (i: nat) => ResultOf(i, r));
  }

  /** The cached answers given out for the keys in `done`. */
  ghost predicate HitsFilled(filled: map<Key, KeyResult>, done: set<Key>, cached: map<Key, PartResult>, env: Env) {
    && (forall pk :: pk in filled <==> pk in done && IsHit(cached, pk, env))
    && (forall pk :: pk in filled ==> filled[pk] == Answer(cached[pk], FromCache))
  }

  /** The stale no-match snapshots of the keys in `done` are gone. */
  ghost predicate StaleDropped(items: map<Key, Item>, done: set<Key>, cached: map<Key, PartResult>, env: Env, items': map<Key, Item>) {
    forall k {:trigger ItemAt(items', k)} :: ItemAt(items', k)
                == if k in done && k in cached && IsStaleNoMatch(cached[k], env) then None else ItemAt(items, k)
  }

  method FillFromCache(t: Tables, ghost keys: seq<Option<Key>>, rows: Rows, indices: map<Key, seq<nat>>,
      cached: map<Key, PartResult>, env: Env)
    returns (rows': Rows, ghost filled: map<Key, KeyResult>)
    requires RowsAre(keys, rows, map[]) && Grouped(keys, indices)
    modifies t`items
    ensures RowsAre(keys, rows', filled) && HitsFilled(filled, indices.Keys, cached, env)
    ensures StaleDropped(old(t.items), indices.Keys, cached, env, t.items)
  {
    rows', filled := rows, map[];
    var left := indices.Keys;
    ghost var done: set<Key> := {};
    while left != {}
      invariant done + left == indices.Keys
      invariant RowsAre(keys, rows', filled) && HitsFilled(filled, done, cached, env)
      invariant StaleDropped(old(t.items), done, cached, env, t.items)
      decreases |left|
    {
      var pk :| pk in left;
      HitsStep(filled, done, cached, env, pk);
      StaleStep(old(t.items), done, cached, env, t.items, pk);
      rows', filled := FillOneFromCache(t, keys, rows', indices[pk], pk, cached, env, filled);
      done, left := done + {pk}, left - {pk};
    }
    assert done == indices.Keys;
  }

  lemma HitsStep(filled: map<Key, KeyResult>, done: set<Key>, cached: map<Key, PartResult>, env: Env, pk: Key)
    requires HitsFilled(filled, done, cached, env)
    ensures HitsFilled(if IsHit(cached, pk, env) then filled[pk := Answer(cached[pk], FromCache)] else filled,
                       done + {pk}, cached, env)
  {}

  lemma StaleStep(items: map<Key, Item>, done: set<Key>, cached: map<Key, PartResult>, env: Env, items': map<Key, Item>, pk: Key)
    requires StaleDropped(items, done, cached, env, items')
    ensures StaleDropped(items, done + {pk}, cached, env,
                         if pk in cached && IsStaleNoMatch(cached[pk], env) then items' - {pk} else items')
  {
    var gone := pk in cached && IsStaleNoMatch(cached[pk], env);
    var items2 := if gone then items' - {pk} else items';
    forall k ensures ItemAt(items2, k) == if gone && k == pk then None else ItemAt(items', k) {}
    assert StaleDropped(items, done + {pk}, cached, env, items2);
  }

  method FillOneFromCache(t: Tables, ghost keys: seq<Option<Key>>, rows: Rows, idxs: seq<nat>, pk: Key,
      cached: map<Key, PartResult>, env: Env, ghost filled: map<Key, KeyResult>)
    returns (rows': Rows, ghost filled': map<Key, KeyResult>)
    requires RowsAre(keys, rows, filled) && idxs == IndicesOf(keys, pk)
    modifies t`items
    ensures RowsAre(keys, rows', filled')
    ensures filled' == if IsHit(cached, pk, env) then filled[pk := Answer(cached[pk], FromCache)] else filled
    ensures t.items == if pk in cached && IsStaleNoMatch(cached[pk], env) then old(t.items) - {pk} else old(t.items)
  {
    rows', filled' := rows, filled;
    if pk in cached {
      var part := cached[pk];
      if IsStaleNoMatch(part, env) {
        // The drain looks the key up again only when the stale snapshot is gone.
        t.DeleteSnapshot(pk);
      } else {
        rows' := FillKey(keys, rows', idxs, pk, Answer(part, FromCache), filled');
        filled' := filled'[pk := Answer(part, FromCache)];
      }
    }
  }

  /** `more` adds to `filled` pending answers for the keys in `done`. */
  ghost predicate PendingOver(filled: map<Key, KeyResult>, done: set<Key>, more: map<Key, KeyResult>) {
    && (forall k :: k in more <==> k in filled || k in done)
    && (forall k :: k in more ==> more[k] == if k in done then Pending else filled[k])
  }

  method FillPending(ghost keys: seq<Option<Key>>, rows: Rows, indices: map<Key, seq<nat>>, missed: seq<Key>,
      ghost filled: map<Key, KeyResult>)
    returns (rows': Rows, ghost filled': map<Key, KeyResult>)
    requires RowsAre(keys, rows, filled) && Grouped(keys, indices) && KeySet(missed) <= indices.Keys
    ensures RowsAre(keys, rows', filled') && PendingOver(filled, KeySet(missed), filled')
  {
    rows', filled' := rows, filled;
    for i := 0 to |missed|
      invariant RowsAre(keys, rows', filled') && PendingOver(filled, KeySet(missed[..i]), filled')
    {
      var pk := missed[i];
      assert pk in KeySet(missed);
      rows' := FillKey(keys, rows', indices[pk], pk, Pending, filled');
      filled' := filled'[pk := Pending];
      assert KeySet(missed[..i + 1]) == KeySet(missed[..i]) + {pk};
    }
    assert missed[..|missed|] == missed;
  }

  /** The answers the provider gave for the keys in `done`. */
  ghost predicate LiveIs(live: map<Key, PartResult>, done: set<Key>, queries: map<Key, PartQuery>, env: Env)
    requires done <= queries.Keys
  {
    && (forall k :: k in live <==> k in done && Answered(env.lookup(queries[k])).Some?)
    && (forall k :: k in live ==> Some(live[k]) == Answered(env.lookup(queries[k])))
  }

  /** `more` adds to `filled` the live answers for the keys in `done`. */
  ghost predicate LiveOver(filled: map<Key, KeyResult>, done: set<Key>, live: map<Key, PartResult>, more: map<Key, KeyResult>) {
    && (forall k :: k in more <==> k in filled || k in done)
    && (forall k :: k in more ==> more[k] == if k in done then LiveResult(if k in live then Some(live[k]) else None) else filled[k])
  }

  method LookUpKey(t: Tables, p: Provider, ghost keys: seq<Option<Key>>, rows: Rows, idxs: seq<nat>, pk: Key, q: PartQuery, env: Env,
      ghost filled: map<Key, KeyResult>)
    returns (rows': Rows)
    requires RowsAre(keys, rows, filled) && idxs == IndicesOf(keys, pk) && KeyOf(q, env.upper) == pk
    requires p.answers == env.lookup
    modifies t, p`asked
    ensures p.asked == old(p.asked) + [q]
    ensures var live := Answered(env.lookup(q));
            && RowsAre(keys, rows', filled[pk := LiveResult(live)])
            && t.items == (if live.Some? then old(t.items)[pk := Encode(pk.text, live.value)] else old(t.items))
            && t.queue == (if live.Some? then old(t.queue) else EnqueuedOne(old(t.queue), pk, env.now))
  {
    var part := ProcessOne(t, p, q, env.upper);
    if part.Some? {
      rows' := FillKey(keys, rows, idxs, pk, Answer(part.value, FromLookup), filled);
    } else {
      var _ := t.EnqueueUnresolved(pk, env.now);
      rows' := FillKey(keys, rows, idxs, pk, Pending, filled);
    }
  }

  /** Keys of `done` that no live answer came for. */
  function Unanswered(done: set<Key>, live: map<Key, PartResult>): set<Key> { done - live.Keys }

  /** Each query belongs to its key. */
  ghost predicate QueriesFit(queries: map<Key, PartQuery>, pks: set<Key>, env: Env)
    requires pks <= queries.Keys
  {
    forall pk {:trigger queries[pk]} :: pk in pks ==> KeyOf(queries[pk], env.upper) == pk
  }

  method LookUpMissed(t: Tables, p: Provider, ghost keys: seq<Option<Key>>, rows: Rows, indices: map<Key, seq<nat>>,
      queries: map<Key, PartQuery>, missed: seq<Key>, env: Env, ghost filled: map<Key, KeyResult>)
    returns (rows': Rows, ghost filled': map<Key, KeyResult>, ghost live: map<Key, PartResult>)
    requires p.answers == env.lookup
    requires RowsAre(keys, rows, filled) && Grouped(keys, indices)
    requires Distinct(missed) && KeySet(missed) <= indices.Keys && queries.Keys == indices.Keys
    requires QueriesFit(queries, KeySet(missed), env)
    modifies t, p`asked
    ensures Asked(p, old(p.asked), missed, env)
    ensures RowsAre(keys, rows', filled')
    ensures Looked(t, old(t.items), old(t.queue), queries, env, filled, KeySet(missed), filled', live)
  {
    rows', filled', live := rows, filled, map[];
    NothingLooked(t, queries, env, filled);
    assert missed[..0] == [];
    for i := 0 to |missed|
      invariant RowsAre(keys, rows', filled')
      invariant Looked(t, old(t.items), old(t.queue), queries, env, filled, KeySet(missed[..i]), filled', live)
      invariant Asked(p, old(p.asked), missed[..i], env)
    {
      var pk := missed[i];
      NextKey(missed, i);
      rows', filled', live :=
        LookUpNext(t, p, keys, rows', indices[pk], pk, queries, env, old(t.items), old(t.queue), filled, missed[..i], filled', live, old(p.asked));
    }
    assert missed[..|missed|] == missed;
  }

  /** The part keys of queries. */
  function AskedKeys(asked: seq<PartQuery>, env: Env): (keys: seq<Key>)
    ensures |keys| == |asked|
  {
    if asked == [] then [] else AskedKeys(asked[..|asked| - 1], env) + [KeyOf(asked[|asked| - 1], env.upper)]
  }

  /** Since its log was `before`, the provider was asked for the keys `pks`, in order. */
  ghost predicate Asked(p: Provider, before: seq<PartQuery>, pks: seq<Key>, env: Env)
    reads p
  {
    before <= p.asked && AskedKeys(p.asked[|before|..], env) == pks
  }

  lemma AskedNext(asked: seq<PartQuery>, q: PartQuery, env: Env)
    ensures AskedKeys(asked + [q], env) == AskedKeys(asked, env) + [KeyOf(q, env.upper)]
  {
    assert (asked + [q])[..|asked|] == asked;
  }

  ghost predicate Distinct(pks: seq<Key>) { forall i, j :: 0 <= i < j < |pks| ==> pks[i] != pks[j] }

  lemma NextKey(pks: seq<Key>, i: nat)
    requires i < |pks| && Distinct(pks)
    ensures pks[i] in KeySet(pks) && pks[i] !in KeySet(pks[..i])
    ensures pks[..i + 1] == pks[..i] + [pks[i]]
  {}

  /** What the lookups so far have done. */
  ghost predicate Looked(t: Tables, items: map<Key, Item>, queue: Queue, queries: map<Key, PartQuery>, env: Env,
      filled: map<Key, KeyResult>, done: set<Key>, filled': map<Key, KeyResult>, live: map<Key, PartResult>)
    reads t
  {
    && done <= queries.Keys && LiveIs(live, done, queries, env)
    && LiveOver(filled, done, live, filled')
    && StoredOver(items, live, t.items)
    && t.queue == Enqueued(queue, Unanswered(done, live), env.now)
  }

  lemma NothingLooked(t: Tables, queries: map<Key, PartQuery>, env: Env, filled: map<Key, KeyResult>)
    ensures Looked(t, t.items, t.queue, queries, env, filled, KeySet([]), filled, map[])
  {
    EnqueueNone(t.queue, env.now);
    assert Unanswered({}, map[]) == KeySet([]);
  }

  method LookUpNext(t: Tables, p: Provider, ghost keys: seq<Option<Key>>, rows: Rows, idxs: seq<nat>, pk: Key, queries: map<Key, PartQuery>,
      env: Env, ghost items: map<Key, Item>, ghost queue: Queue, ghost filled: map<Key, KeyResult>, ghost done: seq<Key>,
      ghost now: map<Key, KeyResult>, ghost live: map<Key, PartResult>, ghost log: seq<PartQuery>)
    returns (rows': Rows, ghost now': map<Key, KeyResult>, ghost live': map<Key, PartResult>)
    requires RowsAre(keys, rows, now) && idxs == IndicesOf(keys, pk)
    requires Looked(t, items, queue, queries, env, filled, KeySet(done), now, live) && Asked(p, log, done, env)
    requires pk in queries && pk !in KeySet(done) && KeyOf(queries[pk], env.upper) == pk
    requires p.answers == env.lookup
    modifies t, p`asked
    ensures RowsAre(keys, rows', now')
    ensures Looked(t, items, queue, queries, env, filled, KeySet(done + [pk]), now', live') && Asked(p, log, done + [pk], env)
  {
    ghost var answer := Answered(env.lookup(queries[pk]));
    LiveStep(live, KeySet(done), queries, env, pk);
    LiveOverStep(filled, KeySet(done), live, now, pk, answer);
    StoredStep(items, live, t.items, pk, answer);
    UnansweredStep(queue, KeySet(done), live, pk, answer, env.now);
    AskedNext(p.asked[|log|..], queries[pk], env);
    rows' := LookUpKey(t, p, keys, rows, idxs, pk, queries[pk], env, now);
    assert p.asked[|log|..] == old(p.asked)[|log|..] + [queries[pk]];
    assert KeySet(done + [pk]) == KeySet(done) + {pk};
    now', live' := now[pk := LiveResult(answer)], WithAnswer(live, pk, answer);
  }

  function WithAnswer(live: map<Key, PartResult>, pk: Key, answer: Option<PartResult>): map<Key, PartResult> {
    if answer.Some? then live[pk := answer.value] else live
  }

  lemma LiveStep(live: map<Key, PartResult>, done: set<Key>, queries: map<Key, PartQuery>, env: Env, pk: Key)
    requires done <= queries.Keys && pk in queries && pk !in done && LiveIs(live, done, queries, env)
    ensures LiveIs(WithAnswer(live, pk, Answered(env.lookup(queries[pk]))), done + {pk}, queries, env)
  {}

  lemma LiveOverStep(filled: map<Key, KeyResult>, done: set<Key>, live: map<Key, PartResult>, more: map<Key, KeyResult>,
      pk: Key, answer: Option<PartResult>)
    requires LiveOver(filled, done, live, more) && pk !in done && pk !in live
    ensures LiveOver(filled, done + {pk}, WithAnswer(live, pk, answer), more[pk := LiveResult(answer)])
  {}

  lemma StoredStep(items: map<Key, Item>, live: map<Key, PartResult>, items': map<Key, Item>, pk: Key, answer: Option<PartResult>)
    requires StoredOver(items, live, items') && pk !in live
    ensures StoredOver(items, WithAnswer(live, pk, answer),
                       if answer.Some? then items'[pk := Encode(pk.text, answer.value)] else items')
  {
    var items2 := if answer.Some? then items'[pk := Encode(pk.text, answer.value)] else items';
    forall k ensures ItemAt(items2, k)
                     == if k == pk && answer.Some? then Some(Encode(pk.text, answer.value)) else ItemAt(items', k) {}
  }

  lemma UnansweredStep(q: Queue, done: set<Key>, live: map<Key, PartResult>, pk: Key, answer: Option<PartResult>, now: int)
    requires pk !in done && pk !in live
    ensures Enqueued(q, Unanswered(done + {pk}, WithAnswer(live, pk, answer)), now)
            == if answer.Some? then Enqueued(q, Unanswered(done, live), now)
               else EnqueuedOne(Enqueued(q, Unanswered(done, live), now), pk, now)
  {
    if answer.Some? {
      assert Unanswered(done + {pk}, WithAnswer(live, pk, answer)) == Unanswered(done, live);
    } else {
      assert Unanswered(done + {pk}, live) == Unanswered(done, live) + {pk};
      EnqueueOne(q, Unanswered(done, live), pk, now);
    }
  }

  lemma FirstRow(rows: Rows, indices: map<Key, seq<nat>>, keys: seq<Option<Key>>, filled: map<Key, KeyResult>, pk: Key)
    requires RowsAre(keys, rows, filled) && Grouped(keys, indices) && pk in indices
    ensures indices[pk] != [] && indices[pk][0] < |rows| && (rows[indices[pk][0]].None? <==> pk !in filled)
  {
    assert keys[indices[pk][0]] == Some(pk);
  }

  /** The keys whose first line has no row yet. */
  method MissedKeys(rows: Rows, indices: map<Key, seq<nat>>, ghost keys: seq<Option<Key>>, ghost filled: map<Key, KeyResult>)
    returns (missed: seq<Key>)
    requires RowsAre(keys, rows, filled) && Grouped(keys, indices)
    ensures Distinct(missed)
    ensures forall k :: k in missed <==> k in indices && k !in filled
  {
    missed := [];
    var left := indices.Keys;
    while left != {}
      invariant left <= indices.Keys && Distinct(missed)
      invariant forall k :: k in missed <==> k in indices && k !in left && k !in filled
      decreases |left|
    {
      var pk :| pk in left;
      FirstRow(rows, indices, keys, filled, pk);
      left := left - {pk};
      if rows[indices[pk][0]].None? {
        missed := missed + [pk];
      }
    }
  }

  lemma KeysOfGroups(lines: seq<PartQuery>, indices: map<Key, seq<nat>>, env: Env, pk: Key)
    requires Grouped(LineKeys(lines, env), indices)
    ensures pk in indices <==> pk in BatchKeys(lines, env)
  {
    var keys := LineKeys(lines, env);
    if pk in BatchKeys(lines, env) {
      assert Some(pk) in keys;
      var j :| 0 <= j < |keys| && keys[j] == Some(pk);
      assert j in IndicesOf(keys, pk);
    }
    if pk in indices {
      assert keys[indices[pk][0]] == Some(pk);
    }
  }

  lemma QueryOfGroup(lines: seq<PartQuery>, indices: map<Key, seq<nat>>, queries: map<Key, PartQuery>, env: Env, pk: Key)
    requires Grouped(LineKeys(lines, env), indices) && Queried(lines, indices, queries) && pk in indices
    ensures KeyOf(queries[pk], env.upper) == pk
    ensures Answered(env.lookup(queries[pk])) == LiveAnswer(lines, pk, env)
  {
    assert LineKeys(lines, env)[indices[pk][0]] == Some(pk);
  }

  /** The groups are those of the batch, and their queries fit them. */
  lemma GroupsFit(lines: seq<PartQuery>, indices: map<Key, seq<nat>>, queries: map<Key, PartQuery>, env: Env)
    requires Grouped(LineKeys(lines, env), indices) && Queried(lines, indices, queries)
    ensures indices.Keys == BatchKeys(lines, env) && QueriesFit(queries, indices.Keys, env)
  {
    forall pk ensures pk in indices <==> pk in BatchKeys(lines, env) {
      KeysOfGroups(lines, indices, env, pk);
    }
    forall pk | pk in indices ensures KeyOf(queries[pk], env.upper) == pk {
      QueryOfGroup(lines, indices, queries, env, pk);
    }
  }

  /** Every key of the batch has the answer its lines should get. */
  ghost predicate FilledIs(filled: map<Key, KeyResult>, lines: seq<PartQuery>, cached: map<Key, PartResult>, cacheOnly: bool, env: Env) {
    && filled.Keys == BatchKeys(lines, env)
    && forall pk :: pk in filled ==> filled[pk] == KeyAnswer(cached, pk, cacheOnly, LiveAnswer(lines, pk, env), env)
  }

  lemma PendingFills(hits: map<Key, KeyResult>, lines: seq<PartQuery>, cached: map<Key, PartResult>, env: Env, filled: map<Key, KeyResult>)
    requires HitsFilled(hits, BatchKeys(lines, env), cached, env)
    requires PendingOver(hits, Missed(BatchKeys(lines, env), cached, env), filled)
    ensures FilledIs(filled, lines, cached, true, env)
  {}

  lemma LiveFills(hits: map<Key, KeyResult>, lines: seq<PartQuery>, cached: map<Key, PartResult>, env: Env, filled: map<Key, KeyResult>,
      queries: map<Key, PartQuery>, live: map<Key, PartResult>)
    requires HitsFilled(hits, BatchKeys(lines, env), cached, env)
    requires queries.Keys == BatchKeys(lines, env)
    requires forall pk :: pk in queries ==> Answered(env.lookup(queries[pk])) == LiveAnswer(lines, pk, env)
    requires LiveIs(live, Missed(BatchKeys(lines, env), cached, env), queries, env)
    requires LiveOver(hits, Missed(BatchKeys(lines, env), cached, env), live, filled)
    ensures FilledIs(filled, lines, cached, false, env)
  {}

  lemma LiveFails(lines: seq<PartQuery>, missed: set<Key>, env: Env, queries: map<Key, PartQuery>, live: map<Key, PartResult>)
    requires missed <= queries.Keys
    requires forall pk :: pk in queries ==> Answered(env.lookup(queries[pk])) == LiveAnswer(lines, pk, env)
    requires LiveIs(live, missed, queries, env)
    ensures Unanswered(missed, live) == FailedKeys(missed, lines, env)
  {}

  lemma LineResults(rows: Rows, filled: map<Key, KeyResult>, lines: seq<PartQuery>, items: map<Key, Item>, force: bool, cacheOnly: bool,
      env: Env, i: nat)
    requires RowsAre(LineKeys(lines, env), rows, filled) && i < |lines|
    requires FilledIs(filled, lines, ReadCache(lines, items, force, env), cacheOnly, env)
    ensures rows[i] == Some(LineResult(lines, i, items, force, cacheOnly, env))
  {
    var keys := LineKeys(lines, env);
    if keys[i].Some? {
      assert keys[i].value in BatchKeys(lines, env);
    }
  }

  /** The stored items after the call: live answers written, stale no-matches dropped. */
  ghost predicate ItemsAfter(items: map<Key, Item>, lines: seq<PartQuery>, cached: map<Key, PartResult>, cacheOnly: bool, env: Env,
      items': map<Key, Item>)
  {
    forall k {:trigger ItemAt(items', k)} ::
      ItemAt(items', k)
      == if !cacheOnly && k in Missed(BatchKeys(lines, env), cached, env) && LiveAnswer(lines, k, env).Some? then
           Some(Encode(k.text, LiveAnswer(lines, k, env).value))
         else if k in BatchKeys(lines, env) && k in cached && IsStaleNoMatch(cached[k], env) then None
         else ItemAt(items, k)
  }

  lemma DroppedThenStored(items: map<Key, Item>, mid: map<Key, Item>, end: map<Key, Item>, lines: seq<PartQuery>,
      cached: map<Key, PartResult>, env: Env, queries: map<Key, PartQuery>, live: map<Key, PartResult>)
    requires StaleDropped(items, BatchKeys(lines, env), cached, env, mid) && StoredOver(mid, live, end)
    requires queries.Keys == BatchKeys(lines, env)
    requires forall pk :: pk in queries ==> Answered(env.lookup(queries[pk])) == LiveAnswer(lines, pk, env)
    requires LiveIs(live, Missed(BatchKeys(lines, env), cached, env), queries, env)
    ensures ItemsAfter(items, lines, cached, false, env, end)
  {
    forall k ensures ItemAt(end, k) == if k in live then Some(Encode(k.text, live[k])) else ItemAt(mid, k) {}
    forall k ensures ItemAt(mid, k)
                     == if k in BatchKeys(lines, env) && k in cached && IsStaleNoMatch(cached[k], env) then None else ItemAt(items, k) {}
    forall k ensures k in live <==> k in Missed(BatchKeys(lines, env), cached, env) && LiveAnswer(lines, k, env).Some? {}
  }

  method FillMissedPending(t: Tables, lines: seq<PartQuery>, env: Env, rows: Rows, indices: map<Key, seq<nat>>, missed: seq<Key>,
      ghost cached: map<Key, PartResult>, ghost hits: map<Key, KeyResult>)
    returns (rows': Rows, ghost filled: map<Key, KeyResult>)
    requires RowsAre(LineKeys(lines, env), rows, hits) && HitsFilled(hits, indices.Keys, cached, env)
    requires Grouped(LineKeys(lines, env), indices) && indices.Keys == BatchKeys(lines, env)
    requires KeySet(missed) == Missed(BatchKeys(lines, env), cached, env)
    modifies t`queue
    ensures RowsAre(LineKeys(lines, env), rows', filled) && FilledIs(filled, lines, cached, true, env)
    ensures t.queue == Enqueued(old(t.queue), KeySet(missed), env.now)
  {
    EnqueueNone(t.queue, env.now);
    if missed != [] {
      var _ := t.EnqueueUnresolvedMany(missed, env.now);
    }
    rows', filled := FillPending(LineKeys(lines, env), rows, indices, missed, hits);
    PendingFills(hits, lines, cached, env, filled);
  }

  method FillMissedLive(t: Tables, p: Provider, lines: seq<PartQuery>, env: Env, rows: Rows, indices: map<Key, seq<nat>>,
      queries: map<Key, PartQuery>, missed: seq<Key>, ghost cached: map<Key, PartResult>, ghost hits: map<Key, KeyResult>,
      ghost items: map<Key, Item>)
    returns (rows': Rows, ghost filled: map<Key, KeyResult>)
    requires p.answers == env.lookup
    requires RowsAre(LineKeys(lines, env), rows, hits) && HitsFilled(hits, indices.Keys, cached, env)
    requires Grouped(LineKeys(lines, env), indices) && Queried(lines, indices, queries)
    requires indices.Keys == BatchKeys(lines, env) && QueriesFit(queries, indices.Keys, env)
    requires Distinct(missed) && KeySet(missed) == Missed(BatchKeys(lines, env), cached, env)
    requires StaleDropped(items, BatchKeys(lines, env), cached, env, t.items)
    modifies t, p`asked
    ensures Asked(p, old(p.asked), missed, env)
    ensures RowsAre(LineKeys(lines, env), rows', filled) && FilledIs(filled, lines, cached, false, env)
    ensures t.queue == Enqueued(old(t.queue), FailedKeys(KeySet(missed), lines, env), env.now)
    ensures ItemsAfter(items, lines, cached, false, env, t.items)
  {
    ghost var live;
    rows', filled, live := LookUpMissed(t, p, LineKeys(lines, env), rows, indices, queries, missed, env, hits);
    forall pk | pk in queries ensures Answered(env.lookup(queries[pk])) == LiveAnswer(lines, pk, env) {
      QueryOfGroup(lines, indices, queries, env, pk);
    }
    LiveFills(hits, lines, cached, env, filled, queries, live);
    LiveFails(lines, KeySet(missed), env, queries, live);
    DroppedThenStored(items, old(t.items), t.items, lines, cached, env, queries, live);
  }

  /** The whole call. Every line gets the result it would get by itself; the provider is asked
      once per missed key; missed or unanswered keys are queued, answers stored. */
  method EnrichLines(t: Tables, p: Provider, lines: seq<PartQuery>, forceRefresh: bool, cacheOnly: bool, env: Env)
    returns (results: seq<EnrichResult>)
    requires p.answers == env.lookup
    modifies t, p`asked
    ensures |results| == |lines|
    ensures forall i :: 0 <= i < |lines| ==> results[i] == LineResult(lines, i, old(t.items), forceRefresh, cacheOnly, env)
    ensures exists asked :: Asked(p, old(p.asked), asked, env) && Distinct(asked)
                            && KeySet(asked) == if cacheOnly then {}
                                                else Missed(BatchKeys(lines, env), ReadCache(lines, old(t.items), forceRefresh, env), env)
    ensures cacheOnly ==> p.asked == old(p.asked)
    ensures var cached := ReadCache(lines, old(t.items), forceRefresh, env);
            var missed := Missed(BatchKeys(lines, env), cached, env);
            && t.queue == Enqueued(old(t.queue), if cacheOnly then missed else FailedKeys(missed, lines, env), env.now)
            && ItemsAfter(old(t.items), lines, cached, cacheOnly, env, t.items)
  {
    var rows, indices, queries := Group(lines, env);
    GroupsFit(lines, indices, queries, env);
    var cached: map<Key, PartResult> := map[];
    if !forceRefresh {
      cached := t.GetMany(queries.Keys);
    }
    ghost var hits;
    rows, hits := FillFromCache(t, LineKeys(lines, env), rows, indices, cached, env);
    var missed := MissedKeys(rows, indices, LineKeys(lines, env), hits);
    MissedIs(missed, hits, indices, lines, cached, env);
    ghost var filled;
    if cacheOnly {
      rows, filled := FillMissedPending(t, lines, env, rows, indices, missed, cached, hits);
      assert Asked(p, old(p.asked), [], env) && KeySet([]) == {};
    } else {
      rows, filled := FillMissedLive(t, p, lines, env, rows, indices, queries, missed, cached, hits, old(t.items));
    }
    AllLineResults(rows, filled, lines, old(t.items), forceRefresh, cacheOnly, env);
    results := seq(|lines|, i requires 0 <= i < |rows| => rows[i].GetOr(NoMpnResult(i)));
  }

  lemma MissedIs(missed: seq<Key>, hits: map<Key, KeyResult>, indices: map<Key, seq<nat>>, lines: seq<PartQuery>,
      cached: map<Key, PartResult>, env: Env)
    requires HitsFilled(hits, indices.Keys, cached, env) && indices.Keys == BatchKeys(lines, env)
    requires forall k :: k in missed <==> k in indices && k !in hits
    ensures KeySet(missed) == Missed(BatchKeys(lines, env), cached, env)
  {}

  lemma AllLineResults(rows: Rows, filled: map<Key, KeyResult>, lines: seq<PartQuery>, items: map<Key, Item>, force: bool,
      cacheOnly: bool, env: Env)
    requires RowsAre(LineKeys(lines, env), rows, filled)
    requires FilledIs(filled, lines, ReadCache(lines, items, force, env), cacheOnly, env)
    ensures |rows| == |lines|
    ensures forall i :: 0 <= i < |lines| ==> rows[i] == Some(LineResult(lines, i, items, force, cacheOnly, env))
  {
    forall i | 0 <= i < |lines| ensures rows[i] == Some(LineResult(lines, i, items, force, cacheOnly, env)) {
      LineResults(rows, filled, lines, items, force, cacheOnly, env, i);
    }
  }

  // ----- results -----

  /** The result carries its own line's index; a line with an MPN never gets the no-MPN
      result; and lines with one key get the same answer. */
  lemma PerLine(lines: seq<PartQuery>, i: nat, j: nat, items: map<Key, Item>, force: bool, cacheOnly: bool, env: Env)
    requires i < |lines| && j < |lines|
    ensures LineResult(lines, i, items, force, cacheOnly, env).inputIndex == i
    ensures LineResult(lines, i, items, force, cacheOnly, env) == NoMpnResult(i) <==> !HasMpn(lines[i], env)
    ensures LineKeys(lines, env)[i] == LineKeys(lines, env)[j] ==>
              LineResult(lines, j, items, force, cacheOnly, env)
              == LineResult(lines, i, items, force, cacheOnly, env).(inputIndex := j)
  {}

  /** What line `i` gets does not depend on the other lines: it is the result of a batch of
      that line alone, when the provider answers queries with one key alike. */
  lemma BatchRefinesSingle(lines: seq<PartQuery>, i: nat, items: map<Key, Item>, force: bool, cacheOnly: bool, env: Env)
    requires i < |lines|
    requires forall j :: 0 <= j < |lines| && LineKeys(lines, env)[j] == LineKeys(lines, env)[i] ==>
               Answered(env.lookup(lines[j])) == Answered(env.lookup(lines[i]))
    ensures LineResult(lines, i, items, force, cacheOnly, env)
            == LineResult([lines[i]], 0, items, force, cacheOnly, env).(inputIndex := i)
  {
    if HasMpn(lines[i], env) {
      var pk := KeyOf(lines[i], env.upper);
      InBatch(lines, i, env);
      InBatch([lines[i]], 0, env);
      assert [lines[i]][0] == lines[i];
      LiveAlike(lines, i, env, pk);
      LiveAlike([lines[i]], 0, env, pk);
    }
  }

  lemma InBatch(lines: seq<PartQuery>, i: nat, env: Env)
    requires i < |lines| && HasMpn(lines[i], env)
    ensures KeyOf(lines[i], env.upper) in BatchKeys(lines, env)
  {
    assert LineKeys(lines, env)[i] in LineKeys(lines, env);
  }

  lemma LiveAlike(lines: seq<PartQuery>, i: nat, env: Env, pk: Key)
    requires i < |lines| && LineKeys(lines, env)[i] == Some(pk)
    requires forall j :: 0 <= j < |lines| && LineKeys(lines, env)[j] == Some(pk) ==>
               Answered(env.lookup(lines[j])) == Answered(env.lookup(lines[i]))
    ensures LiveAnswer(lines, pk, env) == Answered(env.lookup(lines[i]))
  {
    assert i in IndicesOf(LineKeys(lines, env), pk);
  }

  /** A live answer is next time's cached one: the same batch does not ask for it again while
      it is not a stale no-match. */
  lemma AnsweredKeysHitNext(lines: seq<PartQuery>, items: map<Key, Item>, items': map<Key, Item>, force: bool, env: Env, pk: Key)
    requires ItemsAfter(items, lines, ReadCache(lines, items, force, env), false, env, items')
    requires pk in Missed(BatchKeys(lines, env), ReadCache(lines, items, force, env), env)
    requires LiveAnswer(lines, pk, env).Some?
    ensures var part := LiveAnswer(lines, pk, env).value;
            && (part.fetchedAt != "" ==> Snapshot(items', pk) == Some(Stored(part)))
            && (pk in Missed(BatchKeys(lines, env), ReadCache(lines, items', false, env), env)
                <==> part.fetchedAt == "" || IsStaleNoMatch(part, env))
  {
    var part := LiveAnswer(lines, pk, env).value;
    assert ItemAt(items', pk) == Some(Encode(pk.text, part));
    DecodeEncode(pk.text, part);
  }
}
