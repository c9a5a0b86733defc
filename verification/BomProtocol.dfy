/** Edits and background refreshes of one account's BOMs as a state machine whose steps are
    single document reads and writes. Edits, creations, deletions and the compare-and-write
    of a refresh hold the mutation lock from their first to their last write; a refresh reads
    metadata and then analyze without it. */
module BomProtocol {
  import opened Prelude
  import opened Analyze
  import opened BomStore
  import Text

  /** The holder of the mutation lock with what it has computed, and how many of its three
      document writes are done. */
  datatype Lock =
    | Free
    | Editing(op: EditOp, m: BomMetadata, a: AnalyzeResult, written: nat)
    | Refreshing(m: BomMetadata, a: AnalyzeResult, written: nat)
    | Creating(m: BomMetadata, a: AnalyzeResult, written: nat)
    | Deleting(gone: string)

  /** A refresh in flight: it has read the metadata, or both documents; `birth` tells which
      creation of the BOM the metadata it read is of. */
  datatype Refresh =
    | HasMetadata(id: string, summary: BomSummary, birth: nat)
    | HasRecord(id: string, summary: BomSummary, birth: nat, a: AnalyzeResult)

  /** What tells an analyze document from others, whatever its lines. */
  datatype Identity = Identity(uploadId: string, sourceFilename: string, analyzedAt: int)

  /** The creation a BOM comes from, by number and by what it created, the edits committed
      since, and the lines the last of these left. */
  datatype History = History(birth: nat, identity: Identity, created: seq<Core>, edits: seq<EditOp>, base: seq<AnalyzedLine>)

  /** The documents, the lock and the refreshes in flight; for the proofs the history of every
      BOM and the number of creations. */
  datatype State = State(
    docs: Docs,
    lock: Lock,
    refreshes: map<nat, Refresh>,
    history: map<string, History>,
    creations: nat
  )

  datatype Event =
    | BeginEdit(id: string, expected: nat, op: EditOp, now: int)
    | BeginCreate(name: string, filename: string, uploader: Option<string>, upload: AnalyzeResult, now: int)
    | BeginDelete(id: string)
    | RemoveMetadata
    | RemoveAnalyze
    | EndDelete
    | LockedWrite
    | ReadMetadata(task: nat, id: string)
    | ReadAnalyze(task: nat)
    | BeginCommit(task: nat, enrich: seq<Enrichment>)
    | Abandon(task: nat)

  const INITIAL := State(Docs(map[], map[], []), Free, map[], map[], 0)

  function IdentityOf(a: AnalyzeResult): Identity { Identity(a.uploadId, a.sourceFilename, a.analyzedAt) }

  /** What the committed edits make of the created lines; none if one of them cannot apply. */
  function Replay(created: seq<Core>, edits: seq<EditOp>): Option<seq<Core>> {
    if edits == [] then Some(created)
    else
      match Replay(created, edits[..|edits| - 1])
      case None => None
      case Some(cores) => EditCores(cores, edits[|edits| - 1])
  }

  function LockedId(lock: Lock): Option<string> {
    match lock
    case Free => None
    case Deleting(gone) => Some(gone)
    case _ => Some(lock.m.summary.id)
  }

  /** The document a refresh writes for the record it read. */
  function RefreshedAnalyze(a: AnalyzeResult, enrich: seq<Enrichment>): AnalyzeResult {
    if a.lines == [] then a else Finalize(a.(lines := Overlaid(a.lines, enrich)))
  }

  /** Take the lock and compute an edit; a call that fails leaves nothing behind. Versions
      stay below the saturation point in this model. */
  function BeginEditStep(s: State, id: string, expected: nat, op: EditOp, now: int): Option<State> {
    if !s.lock.Free? then None
    else if LoadError(s.docs, id) then Some(s)
    else if s.docs.metadata[id].summary.version >= U64_MAX then None
    else
      match EditBom(s.docs.metadata[id], s.docs.analyze[id], expected, op, now)
      case Err(_) => Some(s)
      case Ok(record) =>
        var m := BomMetadata(record.summary, s.docs.metadata[id].uploadedBy);
        Some(s.(lock := Editing(op, m, WithoutBriefs(record.analyze), 0)))
  }

  /** Take the lock for a creation of finalised lines, be the id new or not. */
  function BeginCreateStep(s: State, name: string, filename: string, uploader: Option<string>, upload: AnalyzeResult,
                           now: int): Option<State>
  {
    if !s.lock.Free? then None
    else
      var a := Finalize(upload);
      Some(s.(lock := Creating(BomMetadata(NewSummary(name, filename, a, now), uploader), WithoutBriefs(a), 0)))
  }

  /** A deletion takes the id out of the index first. */
  function BeginDeleteStep(s: State, id: string): Option<State> {
    if !s.lock.Free? then None
    else if Lookup(s.docs.index, id).None? then Some(s)
    else Some(s.(docs := s.docs.(index := Without(s.docs.index, id)), lock := Deleting(id), history := s.history - {id}))
  }

  /** Then its documents go, in either order, and the lock is released. */
  function DeleteStep(s: State, e: Event): Option<State>
    requires e.RemoveMetadata? || e.RemoveAnalyze? || e.EndDelete?
  {
    if !s.lock.Deleting? then None
    else if e.RemoveMetadata? then
      Some(s.(docs := s.docs.(metadata := s.docs.metadata - {s.lock.gone})))
    else if e.RemoveAnalyze? then
      Some(s.(docs := s.docs.(analyze := s.docs.analyze - {s.lock.gone})))
    else if s.lock.gone in s.docs.metadata || s.lock.gone in s.docs.analyze then None
    else Some(s.(lock := Free))
  }

  function BirthOf(s: State, id: string): nat { if id in s.history then s.history[id].birth else 0 }

  /** A refresh starts by reading the metadata, with or without a lock holder. */
  function ReadMetadataStep(s: State, task: nat, id: string): Option<State> {
    if task in s.refreshes then None
    else if id !in s.docs.metadata then Some(s)
    else
      var summary := NormalizeSummary(s.docs.metadata[id].summary);
      Some(s.(refreshes := s.refreshes[task := HasMetadata(id, summary, BirthOf(s, id))]))
  }

  function ReadAnalyzeStep(s: State, task: nat): Option<State> {
    if task !in s.refreshes || !s.refreshes[task].HasMetadata? then None
    else
      var r := s.refreshes[task];
      if r.id !in s.docs.analyze then Some(s.(refreshes := s.refreshes - {task}))
      else Some(s.(refreshes := s.refreshes[task := HasRecord(r.id, r.summary, r.birth, s.docs.analyze[r.id])]))
  }

  /** Take the lock and compare versions; on a mismatch the refresh is dropped. */
  function BeginCommitStep(s: State, task: nat, enrich: seq<Enrichment>): Option<State> {
    if task !in s.refreshes || !s.refreshes[task].HasRecord? || !s.lock.Free? then None
    else
      var r := s.refreshes[task];
      var rest := s.refreshes - {task};
      if r.id !in s.docs.metadata || s.docs.metadata[r.id].summary.version != r.summary.version then
        Some(s.(refreshes := rest))
      else
        var a := RefreshedAnalyze(r.a, enrich);
        var disk := s.docs.metadata[r.id];
        var m := BomMetadata(RefreshedSummary(disk.summary, WithFigures(r.summary, a)), disk.uploadedBy);
        Some(s.(lock := Refreshing(m, WithoutBriefs(a), 0), refreshes := rest))
  }

  function AbandonStep(s: State, task: nat): Option<State> {
    if task !in s.refreshes then None else Some(s.(refreshes := s.refreshes - {task}))
  }

  /** One step; none when it is not possible in `s`. */
  function Step(s: State, e: Event): Option<State> {
    match e
    case BeginEdit(id, expected, op, now) => BeginEditStep(s, id, expected, op, now)
    case BeginCreate(name, filename, uploader, upload, now) => BeginCreateStep(s, name, filename, uploader, upload, now)
    case BeginDelete(id) => BeginDeleteStep(s, id)
    case RemoveMetadata => DeleteStep(s, e)
    case RemoveAnalyze => DeleteStep(s, e)
    case EndDelete => DeleteStep(s, e)
    case LockedWrite => LockedWriteStep(s)
    case ReadMetadata(task, id) => ReadMetadataStep(s, task, id)
    case ReadAnalyze(task) => ReadAnalyzeStep(s, task)
    case BeginCommit(task, enrich) => BeginCommitStep(s, task, enrich)
    case Abandon(task) => AbandonStep(s, task)
  }

  function PutMetadata(d: Docs, m: BomMetadata): Docs { d.(metadata := d.metadata[m.summary.id := m]) }

  function PutAnalyze(d: Docs, id: string, a: AnalyzeResult): Docs { d.(analyze := d.analyze[id := a]) }

  /** The lock holder's next document write. */
  function LockedWriteStep(s: State): Option<State> {
    match s.lock
    case Free => None
    case Deleting(_) => None
    case Editing(_, _, _, _) => Some(EditWrite(s))
    case Refreshing(_, _, _) => Some(RefreshWrite(s))
    case Creating(_, _, _) => Some(CreateWrite(s))
  }

  function AppendEdit(history: map<string, History>, id: string, op: EditOp, lines: seq<AnalyzedLine>): map<string, History> {
    if id !in history then history
    else history[id := history[id].(edits := history[id].edits + [op], base := lines)]
  }

  /** An edit writes analyze, metadata, index; its metadata write commits it. */
  function EditWrite(s: State): State
    requires s.lock.Editing?
  {
    var id, l := s.lock.m.summary.id, s.lock;
    if l.written == 0 then s.(docs := PutAnalyze(s.docs, id, l.a), lock := Editing(l.op, l.m, l.a, 1))
    else if l.written == 1 then
      s.(docs := PutMetadata(s.docs, l.m), lock := Editing(l.op, l.m, l.a, 2), history := AppendEdit(s.history, id, l.op, l.a.lines))
    else s.(docs := s.docs.(index := Upsert(s.docs.index, l.m.summary)), lock := Free)
  }

  /** A refresh writes metadata, analyze, index. */
  function RefreshWrite(s: State): State
    requires s.lock.Refreshing?
  {
    var id, l := s.lock.m.summary.id, s.lock;
    if l.written == 0 then s.(docs := PutMetadata(s.docs, l.m), lock := Refreshing(l.m, l.a, 1))
    else if l.written == 1 then s.(docs := PutAnalyze(s.docs, id, l.a), lock := Refreshing(l.m, l.a, 2))
    else s.(docs := s.docs.(index := ReplaceEntry(s.docs.index, id, l.m.summary)), lock := Free)
  }

  function NewHistory(birth: nat, a: AnalyzeResult): History { History(birth, IdentityOf(a), Cores(a.lines), [], a.lines) }

  /** A creation writes analyze, metadata, index; its metadata write starts the history. */
  function CreateWrite(s: State): State
    requires s.lock.Creating?
  {
    var id, l := s.lock.m.summary.id, s.lock;
    if l.written == 0 then s.(docs := PutAnalyze(s.docs, id, l.a), lock := Creating(l.m, l.a, 1))
    else if l.written == 1 then
      s.(docs := PutMetadata(s.docs, l.m), lock := Creating(l.m, l.a, 2),
         history := s.history[id := NewHistory(s.creations + 1, l.a)], creations := s.creations + 1)
    else s.(docs := s.docs.(index := Without(s.docs.index, id) + [l.m.summary]), lock := Free)
  }

  /** The state after a run of events, if every one of them is possible. */
  function Run(events: seq<Event>): Option<State> {
    if events == [] then Some(INITIAL)
    else
      match Run(events[..|events| - 1])
      case None => None
      case Some(s) => Step(s, events[|events| - 1])
  }

  // ----- the invariant -----

  ghost predicate HasFigures(s: BomSummary, a: AnalyzeResult) { s == WithFigures(s, a) }

  /** An analyze document as it is stored: scored, and without briefs. */
  ghost predicate IsStored(a: AnalyzeResult) {
    IsScored(a) && forall i :: 0 <= i < |a.lines| ==> a.lines[i].agentBrief.None?
  }

  /** A summary without its figures. */
  function Bare(s: BomSummary): BomSummary {
    s.(lineCount := 0, overallRiskScore := 0.0, atRiskCount := 0, unknownCount := 0, pendingCount := 0, riskBand := "")
  }

  /** Both documents of a BOM are there and agree with each other, and the version counts the
      edits. */
  ghost predicate Good(s: State, id: string) {
    && id in s.docs.metadata && id in s.docs.analyze && id in s.history
    && s.docs.metadata[id].summary.id == id
    && s.docs.metadata[id].summary.version == 1 + |s.history[id].edits|
    && IsStored(s.docs.analyze[id])
    && HasFigures(s.docs.metadata[id].summary, s.docs.analyze[id])
  }

  ghost predicate Missing(s: State, id: string) {
    && id !in s.docs.metadata && id !in s.docs.analyze && id !in s.history
    && Lookup(s.docs.index, id).None?
  }

  ghost predicate Quiet(s: State, id: string) {
    || Missing(s, id)
    || (Good(s, id) && Lookup(s.docs.index, id) == Some(s.docs.metadata[id].summary))
  }

  ghost predicate Pending(m: BomMetadata, a: AnalyzeResult, written: nat) {
    IsStored(a) && HasFigures(m.summary, a) && written <= 2
  }

  ghost predicate EditPending(s: State) {
    s.lock.Editing? ==>
      var m := s.lock.m;
      var a := s.lock.a;
      var written := s.lock.written;
      var id := m.summary.id;
      && Pending(m, a, written)
      && id in s.docs.metadata && id in s.docs.analyze && id in s.history
      && (written == 0 ==> Good(s, id))
      && (written == 1 ==> s.docs.analyze[id] == a)
      && (written <= 1 ==>
            && s.docs.metadata[id].summary.version == 1 + |s.history[id].edits|
            && m.summary.version == 2 + |s.history[id].edits|)
      && (written == 2 ==> Good(s, id) && s.docs.metadata[id] == m)
  }

  ghost predicate RefreshPending(s: State) {
    s.lock.Refreshing? ==>
      var m := s.lock.m;
      var a := s.lock.a;
      var written := s.lock.written;
      var id := m.summary.id;
      && Pending(m, a, written)
      && id in s.docs.metadata && id in s.docs.analyze && id in s.history
      && s.docs.metadata[id].summary.id == id
      && s.docs.metadata[id].summary.version == m.summary.version == 1 + |s.history[id].edits|
      && s.docs.metadata[id].uploadedBy == m.uploadedBy
      && Bare(s.docs.metadata[id].summary) == Bare(m.summary)
      && Lookup(s.docs.index, id).Some? && Bare(Lookup(s.docs.index, id).value) == Bare(m.summary)
      && (written == 0 ==> Good(s, id))
      && (written >= 1 ==> s.docs.metadata[id] == m)
      && (written == 2 ==> s.docs.analyze[id] == a)
  }

  ghost predicate CreatePending(s: State) {
    s.lock.Creating? ==>
      var m := s.lock.m;
      var a := s.lock.a;
      var written := s.lock.written;
      var id := m.summary.id;
      && Pending(m, a, written)
      && m.summary.version == 1
      && (written <= 1 ==> (id in s.docs.metadata <==> id in s.history))
      && (written <= 1 && id in s.history ==> s.docs.metadata[id].summary.version == 1 + |s.history[id].edits|)
      && (written == 1 ==> id in s.docs.analyze && s.docs.analyze[id] == a)
      && (written == 2 ==> Good(s, id) && s.docs.metadata[id] == m && s.docs.analyze[id] == a)
  }

  ghost predicate DeletePending(s: State) {
    s.lock.Deleting? ==> s.lock.gone !in s.history && Lookup(s.docs.index, s.lock.gone).None?
  }

  ghost predicate BirthsOk(s: State) {
    && (forall id :: id in s.history ==> 1 <= s.history[id].birth <= s.creations)
    && (forall t :: t in s.refreshes ==> s.refreshes[t].birth <= s.creations)
  }

  ghost predicate StoredOk(s: State) {
    && (forall id :: id in s.docs.analyze ==> IsStored(s.docs.analyze[id]))
    && (forall t :: t in s.refreshes && s.refreshes[t].HasRecord? ==> IsStored(s.refreshes[t].a))
  }

  /** What holds apart from the BOM that the lock holder is at work on. */
  ghost predicate Common(s: State) {
    && DistinctIds(s.docs.index) && StoredOk(s) && BirthsOk(s)
    && forall id :: LockedId(s.lock) != Some(id) ==> Quiet(s, id)
  }

  /** What holds in every run, ids created again included. */
  ghost predicate Inv(s: State) {
    Common(s) && EditPending(s) && RefreshPending(s) && CreatePending(s) && DeletePending(s)
  }

  // ----- preservation -----

  lemma StripKeepsScores(a: AnalyzeResult)
    requires IsScored(a)
    ensures IsStored(WithoutBriefs(a))
    ensures WithoutBriefs(a).summary == a.summary
  {
    StripCounts(a.lines);
    StripLevels(a.lines);
  }

  lemma BriefDoesNotScore(line: AnalyzedLine)
    ensures ScoreRisk(line.(agentBrief := None)) == ScoreRisk(line)
  {}

  lemma StripLevels(lines: seq<AnalyzedLine>)
    requires forall i :: 0 <= i < |lines| ==> lines[i].riskLevel == ScoreRisk(lines[i])
    ensures forall i :: 0 <= i < |lines| ==> StripBriefs(lines)[i].riskLevel == ScoreRisk(StripBriefs(lines)[i])
  {
    forall i | 0 <= i < |lines| ensures StripBriefs(lines)[i].riskLevel == ScoreRisk(StripBriefs(lines)[i]) {
      BriefDoesNotScore(lines[i]);
    }
  }

  lemma {:induction false} StripCountIf(lines: seq<AnalyzedLine>, keep: AnalyzedLine -> bool)
    requires forall l: AnalyzedLine :: keep(l.(agentBrief := None)) == keep(l)
    ensures CountIf(StripBriefs(lines), keep) == CountIf(lines, keep)
  {
    if lines != [] {
      StripCountIf(lines[1..], keep);
      assert StripBriefs(lines)[1..] == StripBriefs(lines[1..]);
    }
  }

  lemma StripCounts(lines: seq<AnalyzedLine>)
    ensures SummaryOf(StripBriefs(lines)) == SummaryOf(lines)
  {
    StripCountIf(lines, (l: AnalyzedLine) => Text.EqIgnoreCase(l.availabilityStatus, "instock"));
    StripCountIf(lines, (l: AnalyzedLine) => Text.EqIgnoreCase(l.availabilityStatus, "outofstock"));
    StripCountIf(lines, (l: AnalyzedLine) => Text.EqIgnoreCase(l.lifecycleStatus, "eol")
                                             || Text.EqIgnoreCase(l.lifecycleStatus, "nrnd"));
    StripCountIf(lines, (l: AnalyzedLine) => Text.EqIgnoreCase(l.availabilityStatus, "nomatch"));
    StripCountIf(lines, (l: AnalyzedLine) => Text.EqIgnoreCase(l.availabilityStatus, "error"));
    StripCountIf(lines, (l: AnalyzedLine) => l.factoryLeadDays.GetOr(0) > 26 * 7);
    StripCountIf(lines, (l: AnalyzedLine) => l.riskLevel == Red);
    StripCountIf(lines, (l: AnalyzedLine) => l.riskLevel == Yellow);
    StripCountIf(lines, (l: AnalyzedLine) => l.riskLevel == Green);
    StripCountIf(lines, (l: AnalyzedLine) => l.riskLevel == Unknown);
    StripCountIf(lines, IsPendingLine);
  }

  lemma InitialInv()
    ensures Inv(INITIAL)
  {
    forall id ensures Quiet(INITIAL, id) {
      assert Missing(INITIAL, id);
    }
  }

  /** Only the document of `id` differs: every other BOM stays as quiet as it was. */
  lemma OthersQuiet(s: State, s': State, touched: string)
    requires forall id :: id != touched ==> Quiet(s, id)
    requires forall id :: id != touched ==>
               && (id in s.docs.metadata <==> id in s'.docs.metadata)
               && (id in s.docs.metadata ==> s.docs.metadata[id] == s'.docs.metadata[id])
               && (id in s.docs.analyze <==> id in s'.docs.analyze)
               && (id in s.docs.analyze ==> s.docs.analyze[id] == s'.docs.analyze[id])
               && (id in s.history <==> id in s'.history)
               && (id in s.history ==> s.history[id] == s'.history[id])
               && Lookup(s.docs.index, id) == Lookup(s'.docs.index, id)
    ensures forall id :: id != touched ==> Quiet(s', id)
  {
    forall id | id != touched ensures Quiet(s', id) {
      assert Quiet(s, id);
    }
  }

  /** What a successful edit computes: the next version, and figures of the lines. */
  lemma EditBomFacts(m: BomMetadata, a: AnalyzeResult, expected: nat, op: EditOp, now: int)
    requires 1 <= m.summary.version < U64_MAX
    requires EditBom(m, a, expected, op, now).Ok?
    ensures var record := EditBom(m, a, expected, op, now).value;
            var stored := WithoutBriefs(record.analyze);
            && record.summary.id == m.summary.id
            && record.summary.version == m.summary.version + 1
            && HasFigures(record.summary, stored)
            && IsStored(stored)
  {
    FinalizeScores(a.(lines := EditLines(a.lines, op).value));
    StripKeepsScores(EditBom(m, a, expected, op, now).value.analyze);
  }

  lemma BeginEditKeeps(s: State, id: string, expected: nat, op: EditOp, now: int)
    requires Inv(s) && BeginEditStep(s, id, expected, op, now).Some?
    ensures Inv(BeginEditStep(s, id, expected, op, now).value)
  {
    var s' := BeginEditStep(s, id, expected, op, now).value;
    if s'.lock.Editing? {
      assert Quiet(s, id);
      EditBomFacts(s.docs.metadata[id], s.docs.analyze[id], expected, op, now);
      LockTaken(s, s');
      assert Good(s', id);
    }
  }

  /** Taking the lock changes no document. */
  lemma LockTaken(s: State, s': State)
    requires Inv(s) && s.lock.Free?
    requires s'.docs == s.docs && s'.history == s.history
    ensures forall id :: LockedId(s'.lock) != Some(id) ==> Quiet(s', id)
  {
    forall id | LockedId(s'.lock) != Some(id) ensures Quiet(s', id) { assert Quiet(s, id); }
  }

  lemma BeginCreateKeeps(s: State, name: string, filename: string, uploader: Option<string>, upload: AnalyzeResult, now: int)
    requires Inv(s) && BeginCreateStep(s, name, filename, uploader, upload, now).Some?
    ensures Inv(BeginCreateStep(s, name, filename, uploader, upload, now).value)
  {
    var s' := BeginCreateStep(s, name, filename, uploader, upload, now).value;
    FinalizeScores(upload);
    StripKeepsScores(Finalize(upload));
    LockTaken(s, s');
    assert Quiet(s, upload.uploadId);
  }

  lemma BeginDeleteKeeps(s: State, id: string)
    requires Inv(s) && BeginDeleteStep(s, id).Some?
    ensures Inv(BeginDeleteStep(s, id).value)
  {
    var s' := BeginDeleteStep(s, id).value;
    if s'.lock.Deleting? {
      WithoutDistinct(s.docs.index, id);
      forall other ensures Lookup(s'.docs.index, other) == if other == id then None else Lookup(s.docs.index, other) {
        WithoutLookup(s.docs.index, id, other);
      }
      OthersQuiet(s, s', id);
    }
  }

  lemma DeleteStepKeeps(s: State, e: Event)
    requires Inv(s) && (e.RemoveMetadata? || e.RemoveAnalyze? || e.EndDelete?) && DeleteStep(s, e).Some?
    ensures Inv(DeleteStep(s, e).value)
  {
    var s' := DeleteStep(s, e).value;
    OthersQuiet(s, s', s.lock.gone);
    if e.EndDelete? {
      assert Missing(s', s.lock.gone);
    }
  }

  /** Reads leave the documents alone. */
  lemma SameDocsKeep(s: State, s': State)
    requires Inv(s)
    requires s'.docs == s.docs && s'.lock == s.lock && s'.history == s.history && s'.creations == s.creations
    requires forall t :: t in s'.refreshes ==> s'.refreshes[t].birth <= s.creations
    requires forall t :: t in s'.refreshes && s'.refreshes[t].HasRecord? ==> IsStored(s'.refreshes[t].a)
    ensures Inv(s')
  {
    forall id | LockedId(s.lock) != Some(id) ensures Quiet(s', id) { assert Quiet(s, id); }
  }

  lemma PutAnalyzeCommon(s: State, id: string, a: AnalyzeResult, lock: Lock)
    requires Common(s) && LockedId(s.lock) == Some(id) == LockedId(lock) && IsStored(a)
    ensures Common(s.(docs := PutAnalyze(s.docs, id, a), lock := lock))
  {
    OthersQuiet(s, s.(docs := PutAnalyze(s.docs, id, a), lock := lock), id);
  }

  lemma PutMetadataCommon(s: State, s': State, m: BomMetadata)
    requires Common(s) && LockedId(s.lock) == Some(m.summary.id) == LockedId(s'.lock)
    requires s'.docs == PutMetadata(s.docs, m) && s'.refreshes == s.refreshes && s.creations <= s'.creations
    requires s'.history == s.history || (exists h :: s'.history == s.history[m.summary.id := h] && 1 <= h.birth <= s'.creations)
    ensures Common(s')
  {
    OthersQuiet(s, s', m.summary.id);
  }

  lemma EditFirstWriteKeeps(s: State)
    requires Inv(s) && s.lock.Editing? && s.lock.written == 0
    ensures Inv(EditWrite(s))
  {
    PutAnalyzeCommon(s, s.lock.m.summary.id, s.lock.a, EditWrite(s).lock);
  }

  lemma EditSecondWriteKeeps(s: State)
    requires Inv(s) && s.lock.Editing? && s.lock.written == 1
    ensures Inv(EditWrite(s))
  {
    PutMetadataCommon(s, EditWrite(s), s.lock.m);
  }

  lemma EditIndexWriteKeeps(s: State)
    requires Inv(s) && s.lock.Editing? && s.lock.written == 2
    ensures Inv(EditWrite(s))
  {
    var s' := EditWrite(s);
    var id := s.lock.m.summary.id;
    UpsertFacts(s.docs.index, s.lock.m.summary);
    OthersQuiet(s, s', id);
    assert Good(s', id);
    assert Quiet(s', id);
  }

  lemma RefreshFirstWriteKeeps(s: State)
    requires Inv(s) && s.lock.Refreshing? && s.lock.written == 0
    ensures Inv(RefreshWrite(s))
  {
    PutMetadataCommon(s, RefreshWrite(s), s.lock.m);
  }

  lemma RefreshSecondWriteKeeps(s: State)
    requires Inv(s) && s.lock.Refreshing? && s.lock.written == 1
    ensures Inv(RefreshWrite(s))
  {
    PutAnalyzeCommon(s, s.lock.m.summary.id, s.lock.a, RefreshWrite(s).lock);
  }

  lemma RefreshIndexWriteKeeps(s: State)
    requires Inv(s) && s.lock.Refreshing? && s.lock.written == 2
    ensures Inv(RefreshWrite(s))
  {
    var s' := RefreshWrite(s);
    var id := s.lock.m.summary.id;
    ReplaceEntryFacts(s.docs.index, id, s.lock.m.summary);
    OthersQuiet(s, s', id);
    assert Good(s', id);
    assert Quiet(s', id);
  }

  lemma CreateFirstWriteKeeps(s: State)
    requires Inv(s) && s.lock.Creating? && s.lock.written == 0
    ensures Inv(CreateWrite(s))
  {
    PutAnalyzeCommon(s, s.lock.m.summary.id, s.lock.a, CreateWrite(s).lock);
  }

  lemma CreateSecondWriteKeeps(s: State)
    requires Inv(s) && s.lock.Creating? && s.lock.written == 1
    ensures Inv(CreateWrite(s))
  {
    PutMetadataCommon(s, CreateWrite(s), s.lock.m);
  }

  lemma CreateIndexWriteKeeps(s: State)
    requires Inv(s) && s.lock.Creating? && s.lock.written == 2
    ensures Inv(CreateWrite(s))
  {
    var s' := CreateWrite(s);
    var id := s.lock.m.summary.id;
    CreateIndexFacts(s.docs.index, s.lock.m.summary);
    OthersQuiet(s, s', id);
    assert Good(s', id);
    assert Quiet(s', id);
  }

  lemma CreateIndexFacts(index: seq<BomSummary>, entry: BomSummary)
    requires DistinctIds(index)
    ensures DistinctIds(Without(index, entry.id) + [entry])
    ensures forall id :: Lookup(Without(index, entry.id) + [entry], id)
                         == if id == entry.id then Some(entry) else Lookup(index, id)
  {
    var without := Without(index, entry.id);
    WithoutDistinct(index, entry.id);
    WithoutLookup(index, entry.id, entry.id);
    LookupSome(without, entry.id);
    forall id ensures Lookup(without + [entry], id) == if id == entry.id then Some(entry) else Lookup(index, id) {
      WithoutLookup(index, entry.id, id);
      LookupAppend(without, entry, id);
    }
  }

  lemma LockedWriteKeeps(s: State)
    requires Inv(s) && LockedWriteStep(s).Some?
    ensures Inv(LockedWriteStep(s).value)
  {
    match s.lock
    case Editing(_, _, _, written) =>
      if written == 0 { EditFirstWriteKeeps(s); }
      else if written == 1 { EditSecondWriteKeeps(s); }
      else { EditIndexWriteKeeps(s); }
    case Refreshing(_, _, written) =>
      if written == 0 { RefreshFirstWriteKeeps(s); }
      else if written == 1 { RefreshSecondWriteKeeps(s); }
      else { RefreshIndexWriteKeeps(s); }
    case Creating(_, _, written) =>
      if written == 0 { CreateFirstWriteKeeps(s); }
      else if written == 1 { CreateSecondWriteKeeps(s); }
      else { CreateIndexWriteKeeps(s); }
    case Free =>
    case Deleting(_) =>
  }

  lemma BeginCommitKeeps(s: State, task: nat, enrich: seq<Enrichment>)
    requires Inv(s) && BeginCommitStep(s, task, enrich).Some?
    ensures Inv(BeginCommitStep(s, task, enrich).value)
  {
    var s' := BeginCommitStep(s, task, enrich).value;
    var r := s.refreshes[task];
    assert Quiet(s, r.id);
    LockTaken(s, s');
    if s'.lock.Refreshing? {
      RefreshedIsStored(r.a, enrich);
      CommitPending(s, task, enrich);
    }
  }

  lemma CommitPending(s: State, task: nat, enrich: seq<Enrichment>)
    requires BeginCommitStep(s, task, enrich).Some? && BeginCommitStep(s, task, enrich).value.lock.Refreshing?
    requires Quiet(s, s.refreshes[task].id) && IsStored(WithoutBriefs(RefreshedAnalyze(s.refreshes[task].a, enrich)))
    ensures RefreshPending(BeginCommitStep(s, task, enrich).value)
  {
    assert Good(BeginCommitStep(s, task, enrich).value, s.refreshes[task].id);
  }

  lemma RefreshedIsStored(a: AnalyzeResult, enrich: seq<Enrichment>)
    requires IsScored(a)
    ensures IsStored(WithoutBriefs(RefreshedAnalyze(a, enrich)))
  {
    RefreshedScores(a, enrich);
    StripKeepsScores(RefreshedAnalyze(a, enrich));
  }

  lemma RefreshedScores(a: AnalyzeResult, enrich: seq<Enrichment>)
    requires IsScored(a)
    ensures IsScored(RefreshedAnalyze(a, enrich))
  {
    if a.lines != [] {
      FinalizeScores(a.(lines := Overlaid(a.lines, enrich)));
    }
  }

  predicate IsRead(e: Event) { e.ReadMetadata? || e.ReadAnalyze? || e.Abandon? }

  lemma ReadKeepsInv(s: State, e: Event)
    requires Inv(s) && IsRead(e) && Step(s, e).Some?
    ensures Inv(Step(s, e).value)
  {
    SameDocsKeep(s, Step(s, e).value);
  }

  lemma StepKeepsInv(s: State, e: Event)
    requires Inv(s) && Step(s, e).Some?
    ensures Inv(Step(s, e).value)
  {
    if IsRead(e) {
      ReadKeepsInv(s, e);
    } else {
      match e
      case BeginEdit(id, expected, op, now) => BeginEditKeeps(s, id, expected, op, now);
      case BeginCreate(name, filename, uploader, upload, now) => BeginCreateKeeps(s, name, filename, uploader, upload, now);
      case BeginDelete(id) => BeginDeleteKeeps(s, id);
      case LockedWrite => LockedWriteKeeps(s);
      case BeginCommit(task, enrich) => BeginCommitKeeps(s, task, enrich);
      case _ => DeleteStepKeeps(s, e);
    }
  }

  lemma {:induction false} RunKeepsInv(events: seq<Event>)
    requires Run(events).Some?
    ensures Inv(Run(events).value)
    decreases |events|
  {
    if events == [] {
      InitialInv();
    } else {
      RunKeepsInv(events[..|events| - 1]);
      StepKeepsInv(Run(events[..|events| - 1]).value, events[|events| - 1]);
    }
  }
}
