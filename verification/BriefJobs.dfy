/** The line-brief job coalescer (`boms/analysis.rs`): one worker per BOM at a time, and the
    latest batch that arrives while it runs is worked off next. */
module BriefJobs {
  import opened Prelude
  import opened Analyze

  /** `{account_id}/{bom_id}`. */
  datatype Key = Key(text: string)

  /** The lines a job works on. */
  datatype Batch = Batch(lines: seq<AnalyzedLine>)

  datatype Table = Table(running: set<Key>, pending: map<Key, Batch>)

  /** Start a job for `key`, or queue the batch behind the running one; true means started. */
  function TryBegin(t: Table, key: Key, batch: Batch): (Table, bool) {
    if key in t.running then (t.(pending := t.pending[key := batch]), false)
    else (t.(running := t.running + {key}), true)
  }

  /** The worker of `key` asks for its next batch; with none, it stops running. */
  function Finish(t: Table, key: Key): (Table, Option<Batch>) {
    if key in t.pending then (t.(pending := t.pending - {key}), Some(t.pending[key]))
    else (t.(running := t.running - {key}), None)
  }

  class Jobs {
    var running: set<Key>
    var pending: map<Key, Batch>

    constructor ()
      ensures State() == Table({}, map[])
    {
      running, pending := {}, map[];
    }

    function State(): Table
      reads this
    {
      Table(running, pending)
    }

    method TryBeginJob(key: Key, batch: Batch) returns (started: bool)
      modifies this
      ensures (State(), started) == TryBegin(old(State()), key, batch)
    {
      if key in running {
        pending := pending[key := batch];
        return false;
      }
      running := running + {key};
      started := true;
    }

    method FinishJob(key: Key) returns (next: Option<Batch>)
      modifies this
      ensures (State(), next) == Finish(old(State()), key)
    {
      if key in pending {
        next := Some(pending[key]);
        pending := pending - {key};
        return;
      }
      running := running - {key};
      next := None;
    }
  }

  // ----- runs -----

  /** A spawned worker: the BOM it works for, its batch, and whether it has applied it. */
  datatype Worker = Worker(key: Key, batch: Batch, applied: bool)

  /** The table, the live workers, and per BOM the batches kicked and processed, in order. */
  datatype State = State(
    table: Table,
    workers: map<nat, Worker>,
    kicked: map<Key, seq<Batch>>,
    processed: map<Key, seq<Batch>>
  )

  datatype Event =
    | Kick(key: Key, batch: Batch, worker: nat)
    | Apply(worker: nat)
    | FinishBatch(worker: nat)

  function At(log: map<Key, seq<Batch>>, key: Key): seq<Batch> { if key in log then log[key] else [] }

  function Logged(log: map<Key, seq<Batch>>, key: Key, batch: Batch): map<Key, seq<Batch>> {
    log[key := At(log, key) + [batch]]
  }

  function Initial(): State { State(Table({}, map[]), map[], map[], map[]) }

  /** `worker` names the task a kick would spawn. */
  function Step(s: State, e: Event): Option<State> {
    match e
    case Kick(key, batch, w) =>
      if w in s.workers then None
      else
        var r := TryBegin(s.table, key, batch);
        Some(State(r.0, if r.1 then s.workers[w := Worker(key, batch, false)] else s.workers,
                   Logged(s.kicked, key, batch), s.processed))
    case Apply(w) =>
      if w !in s.workers || s.workers[w].applied then None
      else
        var worker := s.workers[w];
        Some(State(s.table, s.workers[w := worker.(applied := true)], s.kicked,
                   Logged(s.processed, worker.key, worker.batch)))
    case FinishBatch(w) =>
      if w !in s.workers || !s.workers[w].applied then None
      else
        var worker := s.workers[w];
        var r := Finish(s.table, worker.key);
        Some(State(r.0,
                   (match r.1
                    case Some(next) => s.workers[w := Worker(worker.key, next, false)]
                    case None => s.workers - {w}),
                   s.kicked, s.processed))
  }

  function Run(events: seq<Event>): Option<State> {
    if events == [] then Some(Initial())
    else
      match Run(events[..|events| - 1])
      case None => None
      case Some(s) => Step(s, events[|events| - 1])
  }

  /** `at` names, in increasing order, the places of `ys` that hold the elements of `xs`. */
  ghost predicate Embeds(at: seq<int>, xs: seq<Batch>, ys: seq<Batch>) {
    && |at| == |xs|
    && (forall i :: 0 <= i < |at| ==> 0 <= at[i] < |ys| && ys[at[i]] == xs[i])
    && (forall i, j :: 0 <= i < j < |at| ==> at[i] < at[j])
  }

  /** `xs` can be had from `ys` by leaving elements out. */
  ghost predicate Subsequence(xs: seq<Batch>, ys: seq<Batch>) { exists at :: Embeds(at, xs, ys) }

  function Last(xs: seq<Batch>): Option<Batch> { if xs == [] then None else Some(xs[|xs| - 1]) }

  function PendingOf(s: State, key: Key): seq<Batch> {
    if key in s.table.pending then [s.table.pending[key]] else []
  }

  function Unapplied(worker: Worker): seq<Batch> { if worker.applied then [] else [worker.batch] }

  /** What has been and will be processed for the worker's BOM as things stand. */
  function Plan(s: State, w: nat): seq<Batch>
    requires w in s.workers
  {
    At(s.processed, s.workers[w].key) + Unapplied(s.workers[w]) + PendingOf(s, s.workers[w].key)
  }

  /** `plan` is in kick order and ends with the last batch kicked. */
  ghost predicate EndsKicked(plan: seq<Batch>, kicked: seq<Batch>) {
    Subsequence(plan, kicked) && Last(plan) == Last(kicked)
  }

  ghost predicate OnTrack(s: State, w: nat)
    requires w in s.workers
  {
    EndsKicked(Plan(s, w), At(s.kicked, s.workers[w].key))
  }

  ghost predicate HasWorker(s: State, key: Key) {
    exists w :: w in s.workers && s.workers[w].key == key
  }

  /** A BOM no worker runs for: nothing is queued, and all kicks have been dealt with. */
  ghost predicate Idle(s: State, key: Key) {
    key !in s.table.pending && EndsKicked(At(s.processed, key), At(s.kicked, key))
  }

  ghost predicate OneWorkerPerKey(s: State) {
    forall v, w {:trigger s.workers[v], s.workers[w]} ::
      v in s.workers && w in s.workers && s.workers[v].key == s.workers[w].key ==> v == w
  }

  ghost predicate Inv(s: State) {
    && OneWorkerPerKey(s)
    && (forall w {:trigger s.workers[w]} :: w in s.workers ==> s.workers[w].key in s.table.running)
    && (forall w {:trigger OnTrack(s, w)} :: w in s.workers ==> OnTrack(s, w))
    && (forall key {:trigger HasWorker(s, key)} :: key in s.table.running ==> HasWorker(s, key))
    && (forall key {:trigger Idle(s, key)} :: key !in s.table.running ==> Idle(s, key))
  }

  lemma SubsequenceSnoc(xs: seq<Batch>, ys: seq<Batch>, b: Batch)
    requires Subsequence(xs, ys)
    ensures Subsequence(xs + [b], ys + [b])
  {
    var at :| Embeds(at, xs, ys);
    assert Embeds(at + [|ys|], xs + [b], ys + [b]);
  }

  lemma SubsequencePrefix(xs: seq<Batch>, rest: seq<Batch>, ys: seq<Batch>)
    requires Subsequence(xs + rest, ys)
    ensures Subsequence(xs, ys)
  {
    var at :| Embeds(at, xs + rest, ys);
    assert forall i :: 0 <= i < |xs| ==> (xs + rest)[i] == xs[i];
    assert Embeds(at[..|xs|], xs, ys);
  }

  /** Dropping the queued batch and queueing a newer one: still in kick order. */
  lemma Requeue(done: seq<Batch>, queued: seq<Batch>, kicked: seq<Batch>, b: Batch)
    requires |queued| <= 1 && Subsequence(done + queued, kicked)
    ensures Subsequence(done + [b], kicked + [b])
  {
    SubsequencePrefix(done, queued, kicked);
    SubsequenceSnoc(done, kicked, b);
  }

  /** Only the BOM `key` differs between the two states. */
  ghost predicate SameElsewhere(s: State, s': State, key: Key) {
    forall k :: k != key ==>
      && At(s'.kicked, k) == At(s.kicked, k) && At(s'.processed, k) == At(s.processed, k)
      && PendingOf(s', k) == PendingOf(s, k) && (k in s'.table.pending <==> k in s.table.pending)
  }

  lemma OtherOnTrack(s: State, s': State, key: Key, u: nat)
    requires SameElsewhere(s, s', key)
    requires u in s.workers && u in s'.workers && s'.workers[u] == s.workers[u] && s.workers[u].key != key
    requires OnTrack(s, u)
    ensures OnTrack(s', u)
  {
    assert Plan(s', u) == Plan(s, u);
  }

  lemma OtherIdle(s: State, s': State, key: Key, k: Key)
    requires SameElsewhere(s, s', key) && k != key && Idle(s, k)
    ensures Idle(s', k)
  {}

  /** A step by which the worker `w` of `key` stays or appears, and nothing else changes. */
  ghost predicate IsWorkerStep(s: State, s': State, key: Key, w: nat) {
    && SameElsewhere(s, s', key)
    && w in s'.workers && s'.workers[w].key == key && OnTrack(s', w)
    && (w in s.workers ==> s.workers[w].key == key)
    && (forall u :: u in s'.workers <==> u in s.workers || u == w)
    && (forall u {:trigger s'.workers[u]} :: u in s.workers && u != w ==>
          s'.workers[u] == s.workers[u] && s.workers[u].key != key)
    && (forall k :: k in s'.table.running <==> k in s.table.running || k == key)
  }

  lemma WorkerStepTracks(s: State, s': State, key: Key, w: nat, u: nat)
    requires Inv(s) && IsWorkerStep(s, s', key, w) && u in s'.workers
    ensures OnTrack(s', u)
  {
    if u != w {
      assert OnTrack(s, u);
      OtherOnTrack(s, s', key, u);
    }
  }

  lemma WorkerStepStaffed(s: State, s': State, key: Key, w: nat, k: Key)
    requires Inv(s) && IsWorkerStep(s, s', key, w) && k in s'.table.running
    ensures HasWorker(s', k)
  {
    if k != key {
      assert HasWorker(s, k);
      var u :| u in s.workers && s.workers[u].key == k;
      assert u in s'.workers && s'.workers[u].key == k;
    }
  }

  lemma WorkerStepKeeps(s: State, s': State, key: Key, w: nat)
    requires Inv(s) && IsWorkerStep(s, s', key, w)
    ensures Inv(s')
  {
    forall u | u in s'.workers ensures OnTrack(s', u) {
      WorkerStepTracks(s, s', key, w, u);
    }
    forall k | k in s'.table.running ensures HasWorker(s', k) {
      WorkerStepStaffed(s, s', key, w, k);
    }
    forall k | k !in s'.table.running ensures Idle(s', k) {
      assert Idle(s, k);
      OtherIdle(s, s', key, k);
    }
  }

  lemma QueuedPlan(s: State, key: Key, batch: Batch, w: nat, v: nat)
    requires Step(s, Kick(key, batch, w)).Some? && key in s.table.running
    requires v in s.workers && s.workers[v].key == key && OnTrack(s, v)
    ensures OnTrack(Step(s, Kick(key, batch, w)).value, v)
  {
    var s' := Step(s, Kick(key, batch, w)).value;
    var done := At(s.processed, key) + Unapplied(s.workers[v]);
    Requeue(done, PendingOf(s, key), At(s.kicked, key), batch);
    assert At(s'.kicked, key) == At(s.kicked, key) + [batch];
    assert PendingOf(s', key) == [batch];
    assert Plan(s', v) == done + [batch];
  }

  /** A kick while the BOM's worker runs replaces the queued batch. */
  lemma KickQueuedKeeps(s: State, key: Key, batch: Batch, w: nat)
    requires Inv(s) && Step(s, Kick(key, batch, w)).Some? && key in s.table.running
    ensures Inv(Step(s, Kick(key, batch, w)).value)
  {
    assert HasWorker(s, key);
    var v :| v in s.workers && s.workers[v].key == key;
    assert OnTrack(s, v);
    QueuedPlan(s, key, batch, w, v);
    WorkerStepKeeps(s, Step(s, Kick(key, batch, w)).value, key, v);
  }

  lemma StartedPlan(s: State, key: Key, batch: Batch, w: nat)
    requires Step(s, Kick(key, batch, w)).Some? && key !in s.table.running && Idle(s, key)
    ensures var s' := Step(s, Kick(key, batch, w)).value;
            w in s'.workers && s'.workers[w].key == key && OnTrack(s', w)
  {
    var s' := Step(s, Kick(key, batch, w)).value;
    SubsequenceSnoc(At(s.processed, key), At(s.kicked, key), batch);
    assert At(s'.kicked, key) == At(s.kicked, key) + [batch];
    assert Plan(s', w) == At(s.processed, key) + [batch];
  }

  /** A kick of an idle BOM spawns a worker. */
  lemma KickStartsKeeps(s: State, key: Key, batch: Batch, w: nat)
    requires Inv(s) && Step(s, Kick(key, batch, w)).Some? && key !in s.table.running
    ensures Inv(Step(s, Kick(key, batch, w)).value)
  {
    var s' := Step(s, Kick(key, batch, w)).value;
    assert Idle(s, key);
    StartedPlan(s, key, batch, w);
    assert SameElsewhere(s, s', key);
    WorkerStepKeeps(s, s', key, w);
  }

  lemma ApplyKeeps(s: State, w: nat)
    requires Inv(s) && Step(s, Apply(w)).Some?
    ensures Inv(Step(s, Apply(w)).value)
  {
    var s' := Step(s, Apply(w)).value;
    var key := s.workers[w].key;
    assert At(s'.processed, key) == At(s.processed, key) + [s.workers[w].batch];
    assert Plan(s', w) == Plan(s, w);
    assert OnTrack(s, w);
    WorkerStepKeeps(s, s', key, w);
  }

  /** The worker takes the queued batch. */
  lemma FinishContinuesKeeps(s: State, w: nat)
    requires Inv(s) && Step(s, FinishBatch(w)).Some? && s.workers[w].key in s.table.pending
    ensures Inv(Step(s, FinishBatch(w)).value)
  {
    var s' := Step(s, FinishBatch(w)).value;
    var key := s.workers[w].key;
    assert Unapplied(s.workers[w]) == [] && PendingOf(s', key) == [];
    assert Plan(s', w) == Plan(s, w);
    assert OnTrack(s, w);
    WorkerStepKeeps(s, s', key, w);
  }

  /** With nothing queued the worker is gone, and everything kicked has been dealt with. */
  lemma FinishStopsKeeps(s: State, w: nat)
    requires Inv(s) && Step(s, FinishBatch(w)).Some? && s.workers[w].key !in s.table.pending
    ensures Inv(Step(s, FinishBatch(w)).value)
  {
    var s' := Step(s, FinishBatch(w)).value;
    var key := s.workers[w].key;
    assert Plan(s, w) == At(s.processed, key);
    assert OnTrack(s, w);
    forall u | u in s'.workers ensures OnTrack(s', u) {
      assert OnTrack(s, u);
      OtherOnTrack(s, s', key, u);
    }
    forall k | k in s'.table.running ensures HasWorker(s', k) {
      assert HasWorker(s, k);
      var u :| u in s.workers && s.workers[u].key == k;
      assert u in s'.workers;
    }
    forall k | k !in s'.table.running ensures Idle(s', k) {
      if k != key {
        assert Idle(s, k);
        OtherIdle(s, s', key, k);
      }
    }
  }

  lemma {:induction false} RunKeepsInv(events: seq<Event>)
    requires Run(events).Some?
    ensures Inv(Run(events).value)
    decreases |events|
  {
    if events == [] {
      assert forall key: Key :: Embeds([], At(map[], key), At(map[], key));
    } else {
      var last := events[|events| - 1];
      RunKeepsInv(events[..|events| - 1]);
      var s := Run(events[..|events| - 1]).value;
      match last
      case Kick(key, batch, w) =>
        if key in s.table.running { KickQueuedKeeps(s, key, batch, w); } else { KickStartsKeeps(s, key, batch, w); }
      case Apply(w) => ApplyKeeps(s, w);
      case FinishBatch(w) =>
        if s.workers[w].key in s.table.pending { FinishContinuesKeeps(s, w); } else { FinishStopsKeeps(s, w); }
    }
  }

  /** No wakeup is lost, in any interleaving: per BOM at most one worker runs, and one runs
      exactly when the table says so; a queued batch has a worker to take it; the processed
      batches are kicked ones, in order; and once no worker is running, the last batch
      processed is the last one kicked. */
  lemma NoLostWakeup(events: seq<Event>, key: Key)
    requires Run(events).Some?
    ensures var s := Run(events).value;
            && OneWorkerPerKey(s)
            && (key in s.table.pending ==> HasWorker(s, key))
            && (key in s.table.running <==> HasWorker(s, key))
            && Subsequence(At(s.processed, key), At(s.kicked, key))
            && (!HasWorker(s, key) ==> Last(At(s.processed, key)) == Last(At(s.kicked, key)))
  {
    RunKeepsInv(events);
    var s := Run(events).value;
    if HasWorker(s, key) {
      var w :| w in s.workers && s.workers[w].key == key;
      assert OnTrack(s, w);
      ProcessedInOrder(s, w);
    } else {
      assert Idle(s, key);
    }
  }

  lemma ProcessedInOrder(s: State, w: nat)
    requires w in s.workers && OnTrack(s, w)
    ensures Subsequence(At(s.processed, s.workers[w].key), At(s.kicked, s.workers[w].key))
  {
    var done := At(s.processed, s.workers[w].key);
    var rest := Unapplied(s.workers[w]) + PendingOf(s, s.workers[w].key);
    assert Plan(s, w) == done + rest;
    SubsequencePrefix(done, rest, At(s.kicked, s.workers[w].key));
  }
}
