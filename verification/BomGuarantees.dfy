/** What the BOM store guarantees over every interleaving of edits and refreshes. */
module BomGuarantees {
  import opened Prelude
  import opened Analyze
  import opened BomStore
  import opened BomProtocol
  import opened BomContent
  import Briefs
  import Sorting

  // ----- no lost edit -----

  /** Whenever the lock is free, the stored lines are, in order and in everything the customer
      controls, the created lines with exactly the committed edits applied; what was known of
      the parts after the last edit is still there; the document is the one created; and the
      version counts the edits. All this unless a refresh outlived a BOM of that id. */
  lemma NoLostEdit(events: seq<Event>, id: string)
    requires Run(events).Some? && Fresh(events, id) && Run(events).value.lock.Free?
    requires id in Run(events).value.docs.metadata
    ensures var s := Run(events).value;
            && id in s.docs.analyze && id in s.history
            && var h, a := s.history[id], s.docs.analyze[id];
            && Replay(h.created, h.edits) == Some(Cores(a.lines))
            && KeptLines(h.base, a.lines)
            && IdentityOf(a) == h.identity
            && s.docs.metadata[id].summary.version == 1 + |h.edits|
  {
    RunKeepsContent(events, id);
    var s := Run(events).value;
    assert Quiet(s, id);
    KeptCores(s.history[id].base, s.docs.analyze[id].lines);
  }

  /** In every run a refresh that has both documents and comes to compare versions goes ahead
      exactly when a BOM of that id is stored and the version it read is one more than the
      edits committed since that BOM was created, be it the one that was read or not. */
  lemma CommitGoesAheadIff(events: seq<Event>, task: nat, enrich: seq<Enrichment>)
    requires Run(events).Some? && BeginCommitStep(Run(events).value, task, enrich).Some?
    ensures var s := Run(events).value;
            var r := s.refreshes[task];
            && (r.id in s.docs.metadata ==> r.id in s.history)
            && (BeginCommitStep(s, task, enrich).value.lock.Refreshing?
                <==> r.id in s.docs.metadata && r.summary.version == 1 + |s.history[r.id].edits|)
  {
    RunKeepsInv(events);
    assert Quiet(Run(events).value, Run(events).value.refreshes[task].id);
  }

  /** Without freshness an edit can be lost: a refresh read the first BOM at version 1, which
      the BOM created over it has again, so its write goes through and puts the first BOM's
      lines back. */
  lemma RecreationDefeatsVersionCheck(d: Docs, uploader: Option<string>, first: AnalyzeResult, second: AnalyzeResult, now: int)
    requires second.uploadId == first.uploadId
    requires d == ApplyCreate(Docs(map[], map[], []), BomMetadata(NewSummary("a", "a.csv", Finalize(first), now), uploader), Finalize(first))
    ensures var id := first.uploadId;
            var read := GetBom(d, id);
            var gone := ApplyDelete(d, id);
            var m := BomMetadata(NewSummary("b", "b.csv", Finalize(second), now), uploader);
            var again := ApplyCreate(gone.0, m, Finalize(second));
            && read.Ok? && gone.1.Ok?
            && id in again.analyze && Cores(again.analyze[id].lines) == Cores(second.lines)
            && var written := ApplyCas(again, id, read.value.summary.version, read.value.analyze, read.value.summary);
            && written.1 == Ok(true)
            && id in written.0.analyze && Cores(written.0.analyze[id].lines) == Cores(first.lines)
  {
    assert d.index == [NewSummary("a", "a.csv", Finalize(first), now)];
    assert Cores(WithoutBriefs(Finalize(first)).lines) == Cores(first.lines);
    assert Cores(WithoutBriefs(Finalize(second)).lines) == Cores(second.lines);
  }

  // ----- what a refresh changes -----

  /** Steps on behalf of a refresh, and steps that only take the lock. */
  predicate IsRefreshStep(s: State, e: Event) {
    || e.ReadMetadata? || e.ReadAnalyze? || e.BeginCommit? || e.Abandon?
    || (e.LockedWrite? && s.lock.Refreshing?)
  }

  /** The same entries in the same places, but for their figures. */
  ghost predicate SameEntries(index: seq<BomSummary>, index': seq<BomSummary>) {
    |index'| == |index| && forall i :: 0 <= i < |index| ==> Bare(index'[i]) == Bare(index[i])
  }

  /** Every BOM has the documents it had; metadata and index entries differ in their figures
      only. */
  ghost predicate SameBoms(s: State, s': State) {
    && s'.history == s.history && s'.creations == s.creations
    && s'.docs.metadata.Keys == s.docs.metadata.Keys
    && s'.docs.analyze.Keys == s.docs.analyze.Keys
    && (forall id :: id in s.docs.metadata ==>
          && s'.docs.metadata[id].uploadedBy == s.docs.metadata[id].uploadedBy
          && Bare(s'.docs.metadata[id].summary) == Bare(s.docs.metadata[id].summary))
    && SameEntries(s.docs.index, s'.docs.index)
  }

  /** A line changes at most in availability, lifecycle, match, lead days, stock and risk
      level, and in what was not known of the part after the customer's last edit. */
  ghost predicate OnlyEnriched(base: AnalyzedLine, line: AnalyzedLine, line': AnalyzedLine) {
    && line' == line.(availabilityStatus := line'.availabilityStatus, lifecycleStatus := line'.lifecycleStatus,
                      matchStatus := line'.matchStatus, factoryLeadDays := line'.factoryLeadDays,
                      totalAvail := line'.totalAvail, riskLevel := line'.riskLevel, category := line'.category,
                      htsCode := line'.htsCode, countryOfOrigin := line'.countryOfOrigin)
    && (base.category.Some? ==> line'.category == line.category)
    && (base.htsCode.Some? ==> line'.htsCode == line.htsCode)
    && (base.countryOfOrigin.Some? ==> line'.countryOfOrigin == line.countryOfOrigin)
  }

  /** The analyze document: the same upload with the same lines, enriched and scored. */
  ghost predicate SameForCustomer(base: seq<AnalyzedLine>, a: AnalyzeResult, a': AnalyzeResult) {
    && IdentityOf(a') == IdentityOf(a) && IsScored(a')
    && |a.lines| == |a'.lines| == |base|
    && forall i :: 0 <= i < |base| ==> OnlyEnriched(base[i], a.lines[i], a'.lines[i])
  }

  lemma BothKept(base: seq<AnalyzedLine>, lines: seq<AnalyzedLine>, lines': seq<AnalyzedLine>)
    requires KeptLines(base, lines) && KeptLines(base, lines')
    ensures forall i :: 0 <= i < |base| ==> OnlyEnriched(base[i], lines[i], lines'[i])
  {
    forall i | 0 <= i < |base| ensures OnlyEnriched(base[i], lines[i], lines'[i]) {
      assert KeptLine(base[i], lines[i]) && KeptLine(base[i], lines'[i]);
    }
  }

  lemma {:induction false} ReplaceBare(index: seq<BomSummary>, id: string, s: BomSummary)
    requires Lookup(index, id).Some? ==> Bare(Lookup(index, id).value) == Bare(s)
    ensures SameEntries(index, ReplaceEntry(index, id, s))
  {
    if index != [] && index[0].id != id {
      ReplaceBare(index[1..], id, s);
      assert forall i :: 0 < i < |index| ==> index[i] == index[1..][i - 1];
    }
  }

  lemma RefreshWriteSame(s: State)
    requires RefreshPending(s) && s.lock.Refreshing?
    ensures SameBoms(s, RefreshWrite(s))
  {
    var s' := RefreshWrite(s);
    ReplaceBare(s.docs.index, s.lock.m.summary.id, s.lock.m.summary);
    assert s'.docs.metadata.Keys == s.docs.metadata.Keys;
    assert s'.docs.analyze.Keys == s.docs.analyze.Keys;
  }

  lemma ReadStepsTouchNothing(s: State, e: Event)
    requires (e.ReadMetadata? || e.ReadAnalyze? || e.BeginCommit? || e.Abandon?) && Step(s, e).Some?
    ensures var s' := Step(s, e).value; s'.docs == s.docs && s'.history == s.history && s'.creations == s.creations
  {
    match e
    case ReadMetadata(_, _) =>
    case ReadAnalyze(_) =>
    case BeginCommit(_, _) =>
    case Abandon(_) =>
  }

  lemma RefreshStepSame(s: State, e: Event)
    requires RefreshPending(s) && IsRefreshStep(s, e) && Step(s, e).Some?
    ensures SameBoms(s, Step(s, e).value)
  {
    if e.LockedWrite? {
      RefreshWriteSame(s);
    } else {
      ReadStepsTouchNothing(s, e);
    }
  }

  /** In every run, at any of its steps, a refresh leaves every BOM in place with its history,
      version, name, file, uploader and dates. */
  lemma RefreshKeepsBoms(events: seq<Event>, e: Event)
    requires Run(events).Some? && IsRefreshStep(Run(events).value, e) && Step(Run(events).value, e).Some?
    ensures SameBoms(Run(events).value, Step(Run(events).value, e).value)
  {
    RunKeepsInv(events);
    RefreshStepSame(Run(events).value, e);
  }

  ghost predicate OnlyScoresChange(s: State, s': State, id: string)
    requires id in s.docs.analyze
  {
    && id in s'.docs.analyze
    && (s'.docs.analyze[id] == s.docs.analyze[id]
        || (id in s.history && SameForCustomer(s.history[id].base, s.docs.analyze[id], s'.docs.analyze[id])))
  }

  lemma RefreshWriteContents(s: State, id: string)
    requires ContentOk(s, id) && RefreshPending(s) && s.lock.Refreshing? && id in s.docs.analyze
    ensures OnlyScoresChange(s, RefreshWrite(s), id)
  {
    if id == s.lock.m.summary.id && s.lock.written == 1 {
      BothKept(s.history[id].base, s.docs.analyze[id].lines, s.lock.a.lines);
    }
  }

  lemma RefreshStepContents(s: State, e: Event, id: string)
    requires ContentOk(s, id) && RefreshPending(s) && IsRefreshStep(s, e) && Step(s, e).Some? && id in s.docs.analyze
    ensures OnlyScoresChange(s, Step(s, e).value, id)
  {
    if e.LockedWrite? {
      RefreshWriteContents(s, id);
    } else {
      ReadStepsTouchNothing(s, e);
    }
  }

  /** Nor does it change the lines of any BOM other than in what enrichment and scoring say,
      unless a refresh outlived a BOM of that id. */
  lemma RefreshChangesOnlyScores(events: seq<Event>, e: Event, id: string)
    requires Run(events).Some? && IsRefreshStep(Run(events).value, e) && Step(Run(events).value, e).Some?
    requires Fresh(events, id) && id in Run(events).value.docs.analyze
    ensures OnlyScoresChange(Run(events).value, Step(Run(events).value, e).value, id)
  {
    RunKeepsContent(events, id);
    RefreshStepContents(Run(events).value, e, id);
  }

  function CategoryFound(enrich: seq<Enrichment>, i: nat): Option<string> {
    match AnswerFor(enrich, i)
    case None => None
    case Some(e) => e.category
  }

  lemma RefreshedCategory(a: AnalyzeResult, enrich: seq<Enrichment>, i: nat)
    requires i < |a.lines|
    ensures RefreshedAnalyze(a, enrich).lines[i].category
            == if a.lines[i].category.Some? then a.lines[i].category else CategoryFound(enrich, i)
  {
    assert RefreshedAnalyze(a, enrich).lines[i] == Scored(Overlay(a.lines[i], AnswerFor(enrich, i)));
  }

  /** Between two edits what a refresh filled in can be lost again: of two refreshes that read
      the same document the second writes over the first, and a category that was not known is
      known after both exactly when the second found one. */
  lemma RacingRefreshReopensGap(d: Docs, id: string, a: AnalyzeResult, first: seq<Enrichment>, second: seq<Enrichment>, i: nat)
    requires id in d.metadata && i < |a.lines| && a.lines[i].category.None?
    ensures var summary := d.metadata[id].summary;
            var one := ApplyCas(d, id, summary.version, RefreshedAnalyze(a, first), summary);
            var two := ApplyCas(one.0, id, summary.version, RefreshedAnalyze(a, second), summary);
            && one.1 == Ok(true) && two.1 == Ok(true)
            && one.0.analyze[id].lines[i].category == CategoryFound(first, i)
            && two.0.analyze[id].lines[i].category == CategoryFound(second, i)
  {
    RefreshedCategory(a, first, i);
    RefreshedCategory(a, second, i);
  }

  /** What taking the lock for a commit computes keeps the identity found on disk. */
  lemma CommitKeepsIdentity(s: State, task: nat, enrich: seq<Enrichment>)
    requires BeginCommitStep(s, task, enrich).Some? && BeginCommitStep(s, task, enrich).value.lock.Refreshing?
    ensures var m := BeginCommitStep(s, task, enrich).value.lock.m;
            var r := s.refreshes[task];
            && r.id in s.docs.metadata
            && var disk := s.docs.metadata[r.id];
            && m.uploadedBy == disk.uploadedBy
            && m.summary.id == disk.summary.id && m.summary.name == disk.summary.name
            && m.summary.filename == disk.summary.filename
            && m.summary.uploadedAt == disk.summary.uploadedAt
            && m.summary.updatedAt == disk.summary.updatedAt
            && m.summary.version == disk.summary.version == r.summary.version
  {}

  // ----- whole calls are runs of steps -----

  /** The three document writes of a lock holder, one after the other. */
  function EditWrites(s: State): State
    requires s.lock.Editing? && s.lock.written == 0
  {
    EditWrite(EditWrite(EditWrite(s)))
  }

  function RefreshWrites(s: State): State
    requires s.lock.Refreshing? && s.lock.written == 0
  {
    RefreshWrite(RefreshWrite(RefreshWrite(s)))
  }

  lemma EditWritesDocs(s: State)
    requires s.lock.Editing? && s.lock.written == 0
    ensures var id := s.lock.m.summary.id;
            EditWrites(s) == s.(docs := Docs(s.docs.metadata[id := s.lock.m], s.docs.analyze[id := s.lock.a],
                                             Upsert(s.docs.index, s.lock.m.summary)),
                                lock := Free, history := AppendEdit(s.history, id, s.lock.op, s.lock.a.lines))
  {}

  lemma RefreshWritesDocs(s: State)
    requires s.lock.Refreshing? && s.lock.written == 0
    ensures var id := s.lock.m.summary.id;
            RefreshWrites(s) == s.(docs := Docs(s.docs.metadata[id := s.lock.m], s.docs.analyze[id := s.lock.a],
                                                ReplaceEntry(s.docs.index, id, s.lock.m.summary)),
                                   lock := Free)
  {}

  /** A successful edit call of the store is the lock, an analyze write, a metadata write and
      an index write, and is recorded in the history once; a failing call changes nothing. */
  lemma EditCallIsItsSteps(s: State, id: string, expected: nat, op: EditOp, now: int)
    requires Quiet(s, id) && BeginEditStep(s, id, expected, op, now).Some?
    ensures var call := ApplyEdit(s.docs, id, expected, op, now);
            var begun := BeginEditStep(s, id, expected, op, now).value;
            if call.1.Err? then begun == s && call.0 == s.docs
            else
              && begun.lock.Editing? && begun.lock.written == 0 && id in s.history && id in call.0.analyze
              && EditWrites(begun)
                 == s.(docs := call.0, history := AppendEdit(s.history, id, op, call.0.analyze[id].lines))
  {
    var begun := BeginEditStep(s, id, expected, op, now).value;
    if begun.lock.Editing? {
      EditWritesDocs(begun);
    }
  }

  /** The compare-and-write call of a refresh likewise. */
  lemma CasCallIsItsSteps(s: State, task: nat, enrich: seq<Enrichment>)
    requires BeginCommitStep(s, task, enrich).Some? && Quiet(s, s.refreshes[task].id)
    ensures var r := s.refreshes[task];
            var a := RefreshedAnalyze(r.a, enrich);
            var call := ApplyCas(s.docs, r.id, r.summary.version, WithoutBriefs(a), WithFigures(r.summary, a));
            var begun := BeginCommitStep(s, task, enrich).value;
            if call.1 != Ok(true) then begun == s.(refreshes := s.refreshes - {task}) && call.0 == s.docs
            else
              && begun.lock.Refreshing? && begun.lock.written == 0
              && RefreshWrites(begun) == s.(docs := call.0, refreshes := s.refreshes - {task})
  {
    var begun := BeginCommitStep(s, task, enrich).value;
    if begun.lock.Refreshing? {
      RefreshWritesDocs(begun);
    }
  }

  /** In every run a refresh that goes ahead puts back the customer's data as it read them, so
      these stay as they stand exactly when what it read still says the same; and if the BOM is
      the one it read, they do. */
  lemma CommitLeavesDataIff(events: seq<Event>, task: nat, enrich: seq<Enrichment>)
    requires Run(events).Some? && BeginCommitStep(Run(events).value, task, enrich).Some?
    requires BeginCommitStep(Run(events).value, task, enrich).value.lock.Refreshing?
    ensures var s := Run(events).value;
            var r := s.refreshes[task];
            var end := RefreshWrites(BeginCommitStep(s, task, enrich).value);
            && r.id in s.docs.analyze && r.id in s.history && r.id in end.docs.analyze
            && (Cores(end.docs.analyze[r.id].lines) == Cores(s.docs.analyze[r.id].lines)
                <==> Cores(r.a.lines) == Cores(s.docs.analyze[r.id].lines))
            && (Fresh(events, r.id) && r.birth == s.history[r.id].birth ==>
                  Cores(r.a.lines) == Cores(s.docs.analyze[r.id].lines))
  {
    var s := Run(events).value;
    var r := s.refreshes[task];
    RunKeepsInv(events);
    assert Quiet(s, r.id);
    RefreshWritesDocs(BeginCommitStep(s, task, enrich).value);
    RefreshedKeeps(r.a, enrich);
    KeptCores(r.a.lines, WithoutBriefs(RefreshedAnalyze(r.a, enrich)).lines);
    if Fresh(events, r.id) && r.birth == s.history[r.id].birth {
      RunKeepsContent(events, r.id);
      assert RefreshContent(s, r.id, task);
      KeptCores(s.history[r.id].base, r.a.lines);
      KeptCores(s.history[r.id].base, s.docs.analyze[r.id].lines);
    }
  }

  // ----- skipping is exact -----

  /** With the lock free the index lists exactly the stored BOMs, each entry is its BOM's
      metadata summary, and its at-risk count is the number of red and yellow stored lines. */
  lemma IndexAgrees(events: seq<Event>, id: string)
    requires Run(events).Some? && Run(events).value.lock.Free?
    ensures var d := Run(events).value.docs;
            && DistinctIds(d.index)
            && (HasId(d.index, id) <==> id in d.metadata)
            && (id in d.metadata <==> id in d.analyze)
            && (id in d.metadata ==>
                  && Lookup(d.index, id) == Some(d.metadata[id].summary)
                  && d.metadata[id].summary.atRiskCount == CountIf(d.analyze[id].lines, IsFlagged))
  {
    var s := Run(events).value;
    RunKeepsInv(events);
    assert Quiet(s, id);
    LookupSome(s.docs.index, id);
    if id in s.docs.analyze {
      RiskCountsPartition(s.docs.analyze[id].lines);
    }
  }

  lemma NewerFirstIsPreorder()
    ensures Sorting.TotalPreorder(NewerFirst)
  {}

  /** The listing has the index's entries, normalised, newest first, with distinct ids. */
  lemma ListedSummaries(index: seq<BomSummary>)
    requires DistinctIds(index)
    ensures var listed := Sorting.StableSort(NormalizedIndex(index), NewerFirst);
            && Sorting.Ordered(listed, NewerFirst)
            && DistinctIds(listed)
            && (forall x :: x in listed <==> exists i :: 0 <= i < |index| && x == NormalizeSummary(index[i]))
  {
    var norm := NormalizedIndex(index);
    var listed := Sorting.StableSort(norm, NewerFirst);
    NewerFirstIsPreorder();
    Sorting.SortOrdered(norm, NewerFirst);
    Sorting.SortElements(norm, NewerFirst);
    forall x ensures x in listed <==> exists i :: 0 <= i < |index| && x == NormalizeSummary(index[i]) {
      assert x in listed <==> x in multiset(listed);
      assert x in norm <==> x in multiset(norm);
    }
    assert Sorting.PairwiseApart(norm, SameId);
    Sorting.PermutationStaysApart(norm, listed, SameId);
    assert forall i, j :: 0 <= i < j < |listed| ==> !SameId(listed[i], listed[j]);
  }

  predicate SameId(a: BomSummary, b: BomSummary) { a.id == b.id }

  /** Every listed BOM can be read, and one counted as clear has no flagged line. */
  ghost predicate Readable(d: Docs, summaries: seq<BomSummary>) {
    forall i :: 0 <= i < |summaries| ==>
      && GetBom(d, summaries[i].id).Ok?
      && summaries[i].atRiskCount == CountIf(d.analyze[summaries[i].id].lines, IsFlagged)
  }

  lemma {:induction false} SkippingClearIsExact(d: Docs, summaries: seq<BomSummary>)
    requires Readable(d, summaries)
    ensures CollectFlagged(d, summaries, true).Ok?
    ensures CollectFlagged(d, summaries, true) == CollectFlagged(d, summaries, false)
  {
    if summaries != [] {
      assert forall i :: 0 <= i < |summaries| - 1 ==> summaries[1..][i] == summaries[i + 1];
      SkippingClearIsExact(d, summaries[1..]);
      var lines := d.analyze[summaries[0].id].lines;
      FilterLength(lines, IsFlagged);
      if summaries[0].atRiskCount == 0 {
        var record := GetBom(d, summaries[0].id).value;
        assert FlaggedItems(record) == [];
        var rest := CollectFlagged(d, summaries[1..], false).value;
        assert [] + rest == rest;
      }
    }
  }

  lemma {:induction false} ItemsOfMembers(s: BomSummary, lines: seq<AnalyzedLine>, item: FlaggedItem)
    ensures item in ItemsOf(s, lines) <==>
              exists line :: line in lines && item == FlaggedItem(s.id, s.name, s.version, line)
  {
    if lines != [] {
      ItemsOfMembers(s, lines[1..], item);
      assert lines == [lines[0]] + lines[1..];
      assert ItemsOf(s, lines) == [FlaggedItem(s.id, s.name, s.version, lines[0])] + ItemsOf(s, lines[1..]);
      if item == FlaggedItem(s.id, s.name, s.version, lines[0]) {
        assert lines[0] in lines;
      }
    }
  }

  /** The item of a flagged line of the BOM `id`. */
  ghost predicate IsItemOf(d: Docs, id: string, item: FlaggedItem) {
    && GetBom(d, id).Ok?
    && var r := GetBom(d, id).value;
    && item.line in r.analyze.lines && IsFlagged(item.line)
    && item == FlaggedItem(r.summary.id, r.summary.name, r.summary.version, item.line)
  }

  lemma FlaggedItemsMembers(d: Docs, id: string, item: FlaggedItem)
    requires GetBom(d, id).Ok?
    ensures item in FlaggedItems(GetBom(d, id).value) <==> IsItemOf(d, id, item)
  {
    var r := GetBom(d, id).value;
    ItemsOfMembers(r.summary, Filter(r.analyze.lines, IsFlagged), item);
    FilterMembers(r.analyze.lines, IsFlagged, item.line);
  }

  lemma {:induction false} CollectMembers(d: Docs, summaries: seq<BomSummary>, item: FlaggedItem)
    requires CollectFlagged(d, summaries, false).Ok?
    ensures item in CollectFlagged(d, summaries, false).value <==>
              exists i :: 0 <= i < |summaries| && IsItemOf(d, summaries[i].id, item)
  {
    if summaries != [] {
      CollectMembers(d, summaries[1..], item);
      FlaggedItemsMembers(d, summaries[0].id, item);
      assert forall i :: 0 <= i < |summaries| - 1 ==> summaries[1..][i] == summaries[i + 1];
      if item in FlaggedItems(GetBom(d, summaries[0].id).value) {
        assert IsItemOf(d, summaries[0].id, item);
      }
      if i :| 0 <= i < |summaries[1..]| && IsItemOf(d, summaries[1..][i].id, item) {
        assert IsItemOf(d, summaries[i + 1].id, item);
      }
    }
  }

  /** In every reachable state with the lock free, `flagged_lines` succeeds, gives what a
      scan of every listed BOM gives, and lists exactly the flagged lines of stored BOMs. */
  lemma FlaggedLinesExact(events: seq<Event>)
    requires Run(events).Some? && Run(events).value.lock.Free?
    ensures var d := Run(events).value.docs;
            var r := CollectFlagged(d, ListBoms(d), true);
            && r.Ok?
            && r == CollectFlagged(d, ListBoms(d), false)
            && (forall item :: item in r.value <==> exists id :: id in d.metadata && IsItemOf(d, id, item))
  {
    var d := Run(events).value.docs;
    var listed := ListBoms(d);
    IndexAgrees(events, "");
    ListedSummaries(d.index);
    forall i | 0 <= i < |listed|
      ensures listed[i].id in d.metadata && GetBom(d, listed[i].id).Ok?
              && listed[i].atRiskCount == CountIf(d.analyze[listed[i].id].lines, IsFlagged)
    {
      assert listed[i] in listed;
      var k :| 0 <= k < |d.index| && listed[i] == NormalizeSummary(d.index[k]);
      LookupAt(d.index, k);
      LookupSome(d.index, d.index[k].id);
      IndexAgrees(events, d.index[k].id);
    }
    SkippingClearIsExact(d, listed);
    var r := CollectFlagged(d, listed, true);
    forall item ensures item in r.value <==> exists id :: id in d.metadata && IsItemOf(d, id, item) {
      CollectMembers(d, listed, item);
      if id :| id in d.metadata && IsItemOf(d, id, item) {
        IndexAgrees(events, id);
        var k :| 0 <= k < |d.index| && d.index[k].id == id;
        assert NormalizeSummary(d.index[k]) in listed;
        var i :| 0 <= i < |listed| && listed[i] == NormalizeSummary(d.index[k]);
        assert IsItemOf(d, listed[i].id, item);
      }
    }
  }

  // ----- briefs of stored lines -----

  /** In every run whose creations and replacements hand in lines with distinct rows, the brief
      pass over any stored BOM comes to rest: after a fully answered pass the next one calls the
      model for nothing and has nothing to write. */
  lemma StoredBriefsSettle(events: seq<Event>, id: string, existing: Briefs.LineBriefs, answers: seq<Option<string>>, now: int, later: int)
    requires Run(events).Some? && forall i :: 0 <= i < |events| ==> GivesDistinctRows(events[i])
    requires id in Run(events).value.docs.analyze
    requires |answers| == |Briefs.ToAnalyze(Run(events).value.docs.analyze[id].lines, existing)| && Briefs.AllAnswered(answers)
    ensures var lines := Run(events).value.docs.analyze[id].lines;
            var r := Briefs.Applied(lines, existing, answers, now);
            Briefs.ToAnalyze(lines, r) == [] && Briefs.Applied(lines, r, [], later) == r
  {
    RowsStayDistinct(events);
    var lines := Run(events).value.docs.analyze[id].lines;
    Briefs.DistinctRowsAgree(lines);
    Briefs.SecondPassIsIdle(lines, existing, answers, now, later);
  }
}
