/** What the stored lines of a BOM say in a run of `BomProtocol`: the customer's data, however
    edits and refreshes interleave, as long as no refresh outlives the BOM it read. */
module BomContent {
  import opened Prelude
  import opened Analyze
  import opened BomStore
  import opened BomProtocol

  /** A line as a refresh may leave it: what the customer controls is the same, and so is what
      was known about the part; the rest is for enrichment to say. */
  ghost predicate KeptLine(base: AnalyzedLine, line: AnalyzedLine) {
    && CoreOf(line) == CoreOf(base) && line.agentBrief == base.agentBrief
    && (base.category.Some? ==> line.category == base.category)
    && (base.htsCode.Some? ==> line.htsCode == base.htsCode)
    && (base.countryOfOrigin.Some? ==> line.countryOfOrigin == base.countryOfOrigin)
  }

  ghost predicate KeptLines(base: seq<AnalyzedLine>, lines: seq<AnalyzedLine>) {
    |lines| == |base| && forall i :: 0 <= i < |base| ==> KeptLine(base[i], lines[i])
  }

  /** A document of the BOM with this history. */
  ghost predicate Matches(h: History, a: AnalyzeResult) {
    IdentityOf(a) == h.identity && KeptLines(h.base, a.lines)
  }

  /** The lines the last edit left are the created ones with the edits applied. */
  ghost predicate Replayed(h: History) { Replay(h.created, h.edits) == Some(Cores(h.base)) }

  /** An edit or a creation has written its lines but not its metadata. */
  predicate Rewriting(s: State, id: string) {
    (s.lock.Editing? || s.lock.Creating?) && s.lock.m.summary.id == id && s.lock.written == 1
  }

  ghost predicate LockContent(s: State, id: string)
    requires id in s.history
  {
    var h := s.history[id];
    && (s.lock.Editing? && s.lock.m.summary.id == id && s.lock.written <= 1 ==>
          && IdentityOf(s.lock.a) == h.identity
          && Replay(h.created, h.edits + [s.lock.op]) == Some(Cores(s.lock.a.lines)))
    && (s.lock.Refreshing? && s.lock.m.summary.id == id ==> Matches(h, s.lock.a))
  }

  /** A refresh that read the metadata of this BOM read no later version; and if the version is
      still the stored one, it read a document of the BOM as it is. */
  ghost predicate RefreshContent(s: State, id: string, t: nat)
    requires id in s.history && t in s.refreshes
  {
    var h, r := s.history[id], s.refreshes[t];
    r.id == id && r.birth == h.birth && id in s.docs.metadata ==>
      && r.summary.version <= s.docs.metadata[id].summary.version
      && (r.HasRecord? && r.summary.version == s.docs.metadata[id].summary.version && !Rewriting(s, id) ==> Matches(h, r.a))
  }

  ghost predicate ContentOk(s: State, id: string) {
    id in s.history ==>
      && Replayed(s.history[id])
      && (id in s.docs.analyze && !Rewriting(s, id) ==> Matches(s.history[id], s.docs.analyze[id]))
      && LockContent(s, id)
      && forall t :: t in s.refreshes ==> RefreshContent(s, id, t)
  }

  // ----- refreshes that outlive their BOM -----

  /** If the step is a refresh of `id` that goes ahead with its writes, it read the metadata of
      the BOM that has the id now, not of one that had it before. */
  ghost predicate CommitFresh(s: State, e: Event, id: string) {
    e.BeginCommit? && e.task in s.refreshes && s.refreshes[e.task].id == id
    && Step(s, e).Some? && Step(s, e).value.lock.Refreshing? ==>
      id in s.history && s.refreshes[e.task].birth == s.history[id].birth
  }

  ghost predicate Fresh(events: seq<Event>, id: string) {
    events == []
    || (var before := events[..|events| - 1];
        Fresh(before, id) && (Run(before).Some? ==> CommitFresh(Run(before).value, events[|events| - 1], id)))
  }

  // ----- preservation -----

  lemma KeptFurther(base: seq<AnalyzedLine>, lines: seq<AnalyzedLine>, later: seq<AnalyzedLine>)
    requires KeptLines(base, lines) && KeptLines(lines, later)
    ensures KeptLines(base, later)
  {
    forall i | 0 <= i < |base| ensures KeptLine(base[i], later[i]) {
      assert KeptLine(base[i], lines[i]) && KeptLine(lines[i], later[i]);
    }
  }

  lemma KeptSelf(lines: seq<AnalyzedLine>)
    ensures KeptLines(lines, lines)
  {}

  lemma KeptCores(base: seq<AnalyzedLine>, lines: seq<AnalyzedLine>)
    requires KeptLines(base, lines)
    ensures Cores(lines) == Cores(base)
  {
    forall i | 0 <= i < |base| ensures Cores(lines)[i] == Cores(base)[i] {
      assert KeptLine(base[i], lines[i]);
    }
  }

  /** Overlaying, scoring and dropping briefs. */
  lemma RefreshedKeeps(a: AnalyzeResult, enrich: seq<Enrichment>)
    requires IsStored(a)
    ensures var b := WithoutBriefs(RefreshedAnalyze(a, enrich));
            KeptLines(a.lines, b.lines) && IdentityOf(b) == IdentityOf(a)
  {
    var b := WithoutBriefs(RefreshedAnalyze(a, enrich));
    forall i | 0 <= i < |a.lines| ensures KeptLine(a.lines[i], b.lines[i]) {
      assert b.lines[i] == Scored(Overlay(a.lines[i], AnswerFor(enrich, i))).(agentBrief := None);
    }
  }

  /** What an edit writes: the customer's edit of what was there. */
  lemma EditedCores(m: BomMetadata, a: AnalyzeResult, expected: nat, op: EditOp, now: int)
    requires EditBom(m, a, expected, op, now).Ok?
    ensures var b := WithoutBriefs(EditBom(m, a, expected, op, now).value.analyze);
            EditCores(Cores(a.lines), op) == Some(Cores(b.lines)) && IdentityOf(b) == IdentityOf(a)
  {
    EditLinesOnCores(a.lines, op);
    var lines := EditLines(a.lines, op).value;
    var b := WithoutBriefs(EditBom(m, a, expected, op, now).value.analyze);
    assert Cores(b.lines) == Cores(lines);
  }

  lemma ReplayMore(created: seq<Core>, edits: seq<EditOp>, op: EditOp)
    requires Replay(created, edits).Some?
    ensures Replay(created, edits + [op]) == EditCores(Replay(created, edits).value, op)
  {
    assert (edits + [op])[..|edits|] == edits;
  }

  /** Nothing of what the BOM's content is about changes. */
  ghost predicate Untouched(s: State, s': State, id: string) {
    && (id in s'.history ==> id in s.history && s'.history[id] == s.history[id])
    && (id in s'.docs.analyze ==> id in s.docs.analyze && s'.docs.analyze[id] == s.docs.analyze[id])
    && (id in s'.docs.metadata && id in s'.history ==>
          id in s.docs.metadata && s'.docs.metadata[id].summary.version == s.docs.metadata[id].summary.version)
    && (forall t :: t in s'.refreshes && s'.refreshes[t].id == id ==> t in s.refreshes && s'.refreshes[t] == s.refreshes[t])
    && (Rewriting(s, id) ==> Rewriting(s', id))
  }

  lemma UntouchedKeeps(s: State, s': State, id: string)
    requires ContentOk(s, id) && Untouched(s, s', id) && (id in s'.history ==> LockContent(s', id))
    ensures ContentOk(s', id)
  {
    if id in s'.history {
      forall t | t in s'.refreshes ensures RefreshContent(s', id, t) {
        if s'.refreshes[t].id == id {
          assert RefreshContent(s, id, t);
        }
      }
    }
  }

  /** While a BOM has a history and metadata, its version counts its edits. */
  lemma VersionCounts(s: State, id: string)
    requires Inv(s) && id in s.history && id in s.docs.metadata
    ensures s.docs.metadata[id].summary.version == 1 + |s.history[id].edits|
  {
    assert LockedId(s.lock) != Some(id) ==> Quiet(s, id);
  }

  lemma EditComputed(h: History, a: AnalyzeResult, m: BomMetadata, expected: nat, op: EditOp, now: int)
    requires Replayed(h) && Matches(h, a) && EditBom(m, a, expected, op, now).Ok?
    ensures var b := WithoutBriefs(EditBom(m, a, expected, op, now).value.analyze);
            IdentityOf(b) == h.identity && Replay(h.created, h.edits + [op]) == Some(Cores(b.lines))
  {
    EditedCores(m, a, expected, op, now);
    KeptCores(h.base, a.lines);
    ReplayMore(h.created, h.edits, op);
  }

  lemma BeginEditContent(s: State, target: string, expected: nat, op: EditOp, now: int, id: string)
    requires Quiet(s, target) && ContentOk(s, id) && BeginEditStep(s, target, expected, op, now).Some?
    ensures ContentOk(BeginEditStep(s, target, expected, op, now).value, id)
  {
    var s' := BeginEditStep(s, target, expected, op, now).value;
    if s'.lock.Editing? && target == id && id in s.history {
      EditComputed(s.history[id], s.docs.analyze[id], s.docs.metadata[id], expected, op, now);
    }
    UntouchedKeeps(s, s', id);
  }

  lemma BeginCommitContent(s: State, task: nat, enrich: seq<Enrichment>, id: string)
    requires Inv(s) && ContentOk(s, id) && BeginCommitStep(s, task, enrich).Some?
    requires BeginCommitStep(s, task, enrich).value.lock.Refreshing? && s.refreshes[task].id == id ==>
               id in s.history && s.refreshes[task].birth == s.history[id].birth
    ensures ContentOk(BeginCommitStep(s, task, enrich).value, id)
  {
    var s' := BeginCommitStep(s, task, enrich).value;
    var r := s.refreshes[task];
    if s'.lock.Refreshing? {
      assert Quiet(s, r.id);
      if r.id == id {
        assert RefreshContent(s, id, task);
        RefreshedKeeps(r.a, enrich);
        KeptFurther(s.history[id].base, r.a.lines, s'.lock.a.lines);
      }
    }
    UntouchedKeeps(s, s', id);
  }

  lemma EditWriteContent(s: State, id: string)
    requires EditPending(s) && ContentOk(s, id) && s.lock.Editing?
    ensures ContentOk(EditWrite(s), id)
  {
    var s' := EditWrite(s);
    if s.lock.m.summary.id != id || s.lock.written == 2 {
      UntouchedKeeps(s, s', id);
    } else {
      KeptSelf(s.lock.a.lines);
      forall t | t in s'.refreshes ensures RefreshContent(s', id, t) {
        assert RefreshContent(s, id, t);
      }
    }
  }

  lemma RefreshWriteContent(s: State, id: string)
    requires RefreshPending(s) && ContentOk(s, id) && s.lock.Refreshing?
    ensures ContentOk(RefreshWrite(s), id)
  {
    var s' := RefreshWrite(s);
    if s.lock.m.summary.id != id {
      UntouchedKeeps(s, s', id);
    } else {
      forall t | t in s'.refreshes ensures RefreshContent(s', id, t) {
        assert RefreshContent(s, id, t);
      }
    }
  }

  lemma CreateFirstContent(s: State, id: string)
    requires CreatePending(s) && ContentOk(s, id) && s.lock.Creating? && s.lock.written == 0 && s.lock.m.summary.id == id
    ensures ContentOk(CreateWrite(s), id)
  {
    var s' := CreateWrite(s);
    forall t | t in s'.refreshes && id in s'.history ensures RefreshContent(s', id, t) {
      assert RefreshContent(s, id, t);
    }
  }

  /** The BOM that is created matches itself, and no refresh has read its metadata yet. */
  lemma CreateSecondContent(s: State, id: string)
    requires CreatePending(s) && BirthsOk(s) && s.lock.Creating? && s.lock.written == 1 && s.lock.m.summary.id == id
    ensures ContentOk(CreateWrite(s), id)
  {
    var s' := CreateWrite(s);
    KeptSelf(s.lock.a.lines);
    forall t | t in s'.refreshes ensures RefreshContent(s', id, t) {
      assert s.refreshes[t].birth <= s.creations;
    }
  }

  lemma CreateWriteContent(s: State, id: string)
    requires CreatePending(s) && BirthsOk(s) && ContentOk(s, id) && s.lock.Creating?
    ensures ContentOk(CreateWrite(s), id)
  {
    if s.lock.m.summary.id != id || s.lock.written == 2 {
      UntouchedKeeps(s, CreateWrite(s), id);
    } else if s.lock.written == 0 {
      CreateFirstContent(s, id);
    } else {
      CreateSecondContent(s, id);
    }
  }

  lemma LockedWriteContent(s: State, id: string)
    requires Inv(s) && ContentOk(s, id) && LockedWriteStep(s).Some?
    ensures ContentOk(LockedWriteStep(s).value, id)
  {
    match s.lock
    case Editing(_, _, _, _) => EditWriteContent(s, id);
    case Refreshing(_, _, _) => RefreshWriteContent(s, id);
    case Creating(_, _, _) => CreateWriteContent(s, id);
    case Free =>
    case Deleting(_) =>
  }

  lemma ReadMetadataContent(s: State, task: nat, target: string, id: string)
    requires ContentOk(s, id) && ReadMetadataStep(s, task, target).Some?
    requires id in s.history && id in s.docs.metadata ==> s.docs.metadata[id].summary.version >= 1
    ensures ContentOk(ReadMetadataStep(s, task, target).value, id)
  {
    var s' := ReadMetadataStep(s, task, target).value;
    if id in s'.history {
      forall t | t in s'.refreshes ensures RefreshContent(s', id, t) {
        if t in s.refreshes {
          assert RefreshContent(s, id, t);
        }
      }
    }
  }

  lemma ReadAnalyzeContent(s: State, task: nat, id: string)
    requires ContentOk(s, id) && ReadAnalyzeStep(s, task).Some?
    ensures ContentOk(ReadAnalyzeStep(s, task).value, id)
  {
    var s' := ReadAnalyzeStep(s, task).value;
    if id in s'.history {
      forall t | t in s'.refreshes ensures RefreshContent(s', id, t) {
        assert RefreshContent(s, id, t);
      }
    }
  }

  predicate IsOther(e: Event) {
    e.BeginCreate? || e.BeginDelete? || e.RemoveMetadata? || e.RemoveAnalyze? || e.EndDelete? || e.Abandon?
  }

  lemma OtherContent(s: State, e: Event, id: string)
    requires DeletePending(s) && ContentOk(s, id) && Step(s, e).Some? && IsOther(e)
    ensures ContentOk(Step(s, e).value, id)
  {
    UntouchedKeeps(s, Step(s, e).value, id);
  }

  lemma StepKeepsContent(s: State, e: Event, id: string)
    requires Inv(s) && ContentOk(s, id) && Step(s, e).Some? && CommitFresh(s, e, id)
    ensures ContentOk(Step(s, e).value, id)
  {
    if IsOther(e) {
      OtherContent(s, e, id);
    } else {
      match e
      case BeginEdit(target, expected, op, now) =>
        assert s.lock.Free? ==> Quiet(s, target);
        BeginEditContent(s, target, expected, op, now, id);
      case BeginCommit(task, enrich) => BeginCommitContent(s, task, enrich, id);
      case ReadMetadata(task, target) =>
        if id in s.history && id in s.docs.metadata {
          VersionCounts(s, id);
        }
        ReadMetadataContent(s, task, target, id);
      case ReadAnalyze(task) => ReadAnalyzeContent(s, task, id);
      case LockedWrite => LockedWriteContent(s, id);
    }
  }

  lemma {:induction false} RunKeepsContent(events: seq<Event>, id: string)
    requires Run(events).Some? && Fresh(events, id)
    ensures Inv(Run(events).value) && ContentOk(Run(events).value, id)
    decreases |events|
  {
    RunKeepsInv(events);
    if events != [] {
      var before := events[..|events| - 1];
      RunKeepsContent(before, id);
      StepKeepsContent(Run(before).value, events[|events| - 1], id);
    }
  }

  // ----- when no refresh outlives its BOM -----

  predicate IsCreating(s: State, id: string) { s.lock.Creating? && s.lock.m.summary.id == id }

  ghost predicate NoRefresh(s: State, id: string) { forall t :: t in s.refreshes ==> s.refreshes[t].id != id }

  /** A creation of the id writes its metadata while no refresh of the id is in flight. */
  ghost predicate FreeCreation(s: State, e: Event, id: string) {
    e.LockedWrite? && IsCreating(s, id) && s.lock.written == 1 ==> NoRefresh(s, id)
  }

  /** Every creation of the id does, the first and those that use it again. */
  ghost predicate Undisturbed(events: seq<Event>, id: string) {
    events == []
    || (var before := events[..|events| - 1];
        Undisturbed(before, id) && (Run(before).Some? ==> FreeCreation(Run(before).value, events[|events| - 1], id)))
  }

  /** Every refresh in flight is of the BOM that has the id now. */
  ghost predicate AllCurrent(s: State, id: string) {
    id in s.history ==> forall t :: t in s.refreshes && s.refreshes[t].id == id ==> s.refreshes[t].birth == s.history[id].birth
  }

  lemma LockedWriteCurrent(s: State, id: string)
    requires AllCurrent(s, id) && LockedWriteStep(s).Some? && FreeCreation(s, LockedWrite, id)
    ensures AllCurrent(LockedWriteStep(s).value, id)
  {
    match s.lock
    case Editing(_, _, _, _) =>
    case Refreshing(_, _, _) =>
    case Creating(_, _, _) =>
    case Free =>
    case Deleting(_) =>
  }

  lemma StepKeepsCurrent(s: State, e: Event, id: string)
    requires AllCurrent(s, id) && Step(s, e).Some? && FreeCreation(s, e, id)
    ensures AllCurrent(Step(s, e).value, id)
  {
    if e.LockedWrite? {
      LockedWriteCurrent(s, id);
    }
  }

  /** A refresh that goes ahead with its writes in a state like that is fresh. */
  lemma CurrentIsFresh(s: State, e: Event, id: string)
    requires Inv(s) && AllCurrent(s, id)
    ensures CommitFresh(s, e, id)
  {
    if e.BeginCommit? && s.lock.Free? {
      assert Quiet(s, id);
    }
  }

  /** If no creation of an id writes its metadata while a refresh of the id is in flight, no
      refresh outlives the BOM it read, however often the id is used again. */
  lemma {:induction false} UndisturbedIsFresh(events: seq<Event>, id: string)
    requires Run(events).Some? && Undisturbed(events, id)
    ensures Fresh(events, id) && AllCurrent(Run(events).value, id)
    decreases |events|
  {
    if events != [] {
      var before := events[..|events| - 1];
      UndisturbedIsFresh(before, id);
      RunKeepsInv(before);
      CurrentIsFresh(Run(before).value, events[|events| - 1], id);
      StepKeepsCurrent(Run(before).value, events[|events| - 1], id);
    }
  }

  // ----- ids that are not used again -----

  predicate Creates(e: Event, id: string) { e.BeginCreate? && e.upload.uploadId == id }

  /** How often a creation of the id begins. */
  function CreationsOf(events: seq<Event>, id: string): nat {
    if events == [] then 0
    else CreationsOf(events[..|events| - 1], id) + if Creates(events[|events| - 1], id) then 1 else 0
  }

  /** Before its creation commits an id has no metadata and no refresh. */
  ghost predicate Single(s: State, id: string, begun: nat) {
    && (begun == 0 ==> !IsCreating(s, id))
    && (begun == 0 || (IsCreating(s, id) && s.lock.written <= 1) ==>
          id !in s.docs.metadata && NoRefresh(s, id))
  }

  lemma LockedWriteSingle(s: State, id: string, begun: nat)
    requires EditPending(s) && RefreshPending(s) && Single(s, id, begun) && LockedWriteStep(s).Some?
    ensures Single(LockedWriteStep(s).value, id, begun)
  {
    match s.lock
    case Editing(_, _, _, _) =>
    case Refreshing(_, _, _) =>
    case Creating(_, _, _) =>
    case Free =>
    case Deleting(_) =>
  }

  lemma ReadSingle(s: State, e: Event, id: string, begun: nat)
    requires Single(s, id, begun) && IsRead(e) && Step(s, e).Some?
    ensures Single(Step(s, e).value, id, begun)
  {}

  lemma StepKeepsSingle(s: State, e: Event, id: string, begun: nat)
    requires Inv(s) && Single(s, id, begun) && Step(s, e).Some? && (Creates(e, id) ==> begun == 0)
    ensures Single(Step(s, e).value, id, begun + if Creates(e, id) then 1 else 0)
  {
    if IsRead(e) {
      ReadSingle(s, e, id, begun);
    } else if e.LockedWrite? {
      LockedWriteSingle(s, id, begun);
    } else {
      BeginSingle(s, e, id, begun);
    }
  }

  lemma BeginSingle(s: State, e: Event, id: string, begun: nat)
    requires Single(s, id, begun) && Step(s, e).Some? && (Creates(e, id) ==> begun == 0)
    requires !IsRead(e) && !e.LockedWrite?
    ensures Single(Step(s, e).value, id, begun + if Creates(e, id) then 1 else 0)
  {}

  /** An id that is created at most once is undisturbed, and before that has no metadata. */
  lemma {:induction false} CreatedOnceIsUndisturbed(events: seq<Event>, id: string)
    requires Run(events).Some? && CreationsOf(events, id) <= 1
    ensures Undisturbed(events, id) && Single(Run(events).value, id, CreationsOf(events, id))
    decreases |events|
  {
    if events != [] {
      var before := events[..|events| - 1];
      CreatedOnceIsUndisturbed(before, id);
      RunKeepsInv(before);
      StepKeepsSingle(Run(before).value, events[|events| - 1], id, CreationsOf(before, id));
    }
  }

  /** So no refresh outlives the BOM of an id that is created at most once. */
  lemma CreatedOnceIsFresh(events: seq<Event>, id: string)
    requires Run(events).Some? && CreationsOf(events, id) <= 1
    ensures Fresh(events, id)
  {
    CreatedOnceIsUndisturbed(events, id);
    UndisturbedIsFresh(events, id);
  }

  lemma {:induction false} NeverCreated(events: seq<Event>, id: string)
    requires forall i :: 0 <= i < |events| ==> !Creates(events[i], id)
    ensures CreationsOf(events, id) == 0
    decreases |events|
  {
    if events != [] {
      NeverCreated(events[..|events| - 1], id);
    }
  }

  /** In every run an id no creation was given has no metadata. */
  lemma OnlyCreatedIds(events: seq<Event>, id: string)
    requires Run(events).Some? && forall i :: 0 <= i < |events| ==> !Creates(events[i], id)
    ensures id !in Run(events).value.docs.metadata
  {
    NeverCreated(events, id);
    CreatedOnceIsUndisturbed(events, id);
  }

  // ----- rows -----

  /** The lines a customer hands in have distinct rows. */
  ghost predicate GivesDistinctRows(e: Event) {
    match e
    case BeginCreate(_, _, _, upload, _) => DistinctRows(upload.lines)
    case BeginEdit(_, _, op, _) => op.ReplaceLines? ==> DistinctRows(op.lines)
    case _ => true
  }

  ghost predicate RowsOk(s: State) {
    && (forall id :: id in s.docs.analyze ==> DistinctRows(s.docs.analyze[id].lines))
    && (s.lock.Editing? || s.lock.Refreshing? || s.lock.Creating? ==> DistinctRows(s.lock.a.lines))
    && (forall t :: t in s.refreshes && s.refreshes[t].HasRecord? ==> DistinctRows(s.refreshes[t].a.lines))
  }

  lemma SameRows(lines: seq<AnalyzedLine>, later: seq<AnalyzedLine>)
    requires DistinctRows(lines) && |later| == |lines|
    requires forall i :: 0 <= i < |lines| ==> later[i].user.rowIndex == lines[i].user.rowIndex
    ensures DistinctRows(later)
  {}

  lemma FinalizedRows(a: AnalyzeResult)
    requires DistinctRows(a.lines)
    ensures DistinctRows(WithoutBriefs(Finalize(a)).lines)
  {
    SameRows(a.lines, WithoutBriefs(Finalize(a)).lines);
  }

  lemma RefreshedRows(a: AnalyzeResult, enrich: seq<Enrichment>)
    requires DistinctRows(a.lines)
    ensures DistinctRows(WithoutBriefs(RefreshedAnalyze(a, enrich)).lines)
  {
    SameRows(a.lines, WithoutBriefs(RefreshedAnalyze(a, enrich)).lines);
  }

  lemma BeginEditRows(s: State, id: string, expected: nat, op: EditOp, now: int)
    requires RowsOk(s) && BeginEditStep(s, id, expected, op, now).Some? && (op.ReplaceLines? ==> DistinctRows(op.lines))
    ensures RowsOk(BeginEditStep(s, id, expected, op, now).value)
  {
    if BeginEditStep(s, id, expected, op, now).value.lock.Editing? {
      var a := s.docs.analyze[id];
      EditKeepsRowsDistinct(a.lines, op);
      FinalizedRows(a.(lines := EditLines(a.lines, op).value));
    }
  }

  lemma BeginCommitRows(s: State, task: nat, enrich: seq<Enrichment>)
    requires RowsOk(s) && BeginCommitStep(s, task, enrich).Some?
    ensures RowsOk(BeginCommitStep(s, task, enrich).value)
  {
    RefreshedRows(s.refreshes[task].a, enrich);
  }

  lemma StepKeepsRows(s: State, e: Event)
    requires RowsOk(s) && Step(s, e).Some? && GivesDistinctRows(e)
    ensures RowsOk(Step(s, e).value)
  {
    match e
    case BeginEdit(id, expected, op, now) => BeginEditRows(s, id, expected, op, now);
    case BeginCommit(task, enrich) => BeginCommitRows(s, task, enrich);
    case BeginCreate(_, _, _, upload, _) => FinalizedRows(upload);
    case LockedWrite => LockedWriteRows(s);
    case _ => OtherRows(s, e);
  }

  lemma EditWriteRows(s: State)
    requires RowsOk(s) && s.lock.Editing?
    ensures RowsOk(EditWrite(s))
  {}

  lemma RefreshWriteRows(s: State)
    requires RowsOk(s) && s.lock.Refreshing?
    ensures RowsOk(RefreshWrite(s))
  {}

  lemma CreateWriteRows(s: State)
    requires RowsOk(s) && s.lock.Creating?
    ensures RowsOk(CreateWrite(s))
  {}

  lemma LockedWriteRows(s: State)
    requires RowsOk(s) && LockedWriteStep(s).Some?
    ensures RowsOk(LockedWriteStep(s).value)
  {
    match s.lock
    case Editing(_, _, _, _) => EditWriteRows(s);
    case Refreshing(_, _, _) => RefreshWriteRows(s);
    case Creating(_, _, _) => CreateWriteRows(s);
    case Free =>
    case Deleting(_) =>
  }

  lemma OtherRows(s: State, e: Event)
    requires RowsOk(s) && Step(s, e).Some? && !e.BeginEdit? && !e.BeginCommit? && !e.BeginCreate? && !e.LockedWrite?
    ensures RowsOk(Step(s, e).value)
  {}

  /** In every run whose creations and replacements hand in lines with distinct rows, every
      stored line has a row of its own. */
  lemma {:induction false} RowsStayDistinct(events: seq<Event>)
    requires Run(events).Some? && forall i :: 0 <= i < |events| ==> GivesDistinctRows(events[i])
    ensures RowsOk(Run(events).value)
    decreases |events|
  {
    if events != [] {
      RowsStayDistinct(events[..|events| - 1]);
      StepKeepsRows(Run(events[..|events| - 1]).value, events[|events| - 1]);
    }
  }
}
