/** The versioned BOM store (`boms/store.rs`) of one account: per BOM a metadata and an
    analyze document, plus the account's index. `Docs` is what is stored; the class is the
    store whose methods rewrite it under the mutation lock. */
module BomStore {
  import opened Prelude
  import opened Analyze
  import Sorting
  import Text

  const U64_MAX: nat := 0xFFFF_FFFF_FFFF_FFFF

  datatype StoreError = NotFound | Conflict | LineNotFound

  datatype BomSummary = BomSummary(
    id: string,
    name: string,
    filename: string,
    uploadedAt: int,
    version: nat,
    updatedAt: Option<int>,
    lineCount: nat,
    overallRiskScore: real,
    atRiskCount: nat,
    unknownCount: nat,
    pendingCount: nat,
    riskBand: string
  )

  datatype BomMetadata = BomMetadata(summary: BomSummary, uploadedBy: Option<string>)

  datatype BomRecord = BomRecord(summary: BomSummary, analyze: AnalyzeResult)

  datatype LinePatch = LinePatch(
    mpn: Option<string>,
    manufacturer: Option<string>,
    quantity: Option<real>,
    refdes: Option<string>,
    description: Option<string>
  )

  datatype NewLineInput = NewLineInput(
    mpn: Option<string>,
    manufacturer: Option<string>,
    quantity: Option<real>,
    refdes: Option<string>,
    description: Option<string>
  )

  /** The four ways a customer changes the lines of a BOM. */
  datatype EditOp =
    | ReplaceLines(lines: seq<AnalyzedLine>)
    | PatchLine(index: nat, patch: LinePatch)
    | DeleteLine(index: nat)
    | AddLine(input: NewLineInput)

  datatype Docs = Docs(
    metadata: map<string, BomMetadata>,
    analyze: map<string, AnalyzeResult>,
    index: seq<BomSummary>
  )

  // ----- summaries -----

  function NormalizeSummary(s: BomSummary): BomSummary {
    s.(version := if s.version == 0 then 1 else s.version,
       updatedAt := if s.updatedAt.None? then Some(s.uploadedAt) else s.updatedAt)
  }

  /** Stamp the figures of an analyze result onto a summary (`bom_summary_fields`). */
  function WithFigures(s: BomSummary, a: AnalyzeResult): BomSummary {
    s.(lineCount := a.summary.total,
       overallRiskScore := OverallRiskScore(a.summary),
       atRiskCount := AtRiskCount(a.summary),
       unknownCount := a.summary.unknownCount,
       pendingCount := a.summary.pendingCount,
       riskBand := PortfolioRiskBand(a.summary))
  }

  function SaturatingSucc(v: nat): nat { if v < U64_MAX then v + 1 else U64_MAX }

  function BumpAfterEdit(s: BomSummary, a: AnalyzeResult, now: int): BomSummary {
    WithFigures(s.(version := SaturatingSucc(s.version), updatedAt := Some(now)), a)
  }

  function StripBriefs(lines: seq<AnalyzedLine>): (r: seq<AnalyzedLine>)
    ensures |r| == |lines|
    ensures forall i :: 0 <= i < |lines| ==> r[i] == lines[i].(agentBrief := None)
  {
    if lines == [] then [] else [lines[0].(agentBrief := None)] + StripBriefs(lines[1..])
  }

  /** Briefs are never stored in the analyze document (`analyze_without_briefs`). */
  function WithoutBriefs(a: AnalyzeResult): AnalyzeResult {
    a.(lines := StripBriefs(a.lines), topRisks := StripBriefs(a.topRisks))
  }

  // ----- edits on full lines -----

  function UnresolvedStatus(mpn: Option<string>): string {
    if Text.IsBlank(mpn.GetOr("")) then "NoMatch" else "Pending"
  }

  function PatchUser(u: LineUser, p: LinePatch): LineUser {
    u.(mpn := if p.mpn.Some? then p.mpn else u.mpn,
       manufacturer := if p.manufacturer.Some? then p.manufacturer else u.manufacturer,
       quantity := if p.quantity.Some? then p.quantity else u.quantity,
       refdes := if p.refdes.Some? then p.refdes else u.refdes,
       description := if p.description.Some? then p.description else u.description)
  }

  /** A patch that touches the part identity resets what enrichment said about the line. */
  function PatchedLine(line: AnalyzedLine, p: LinePatch): AnalyzedLine {
    var user := PatchUser(line.user, p);
    if p.mpn.None? && p.manufacturer.None? then line.(user := user)
    else
      var status := UnresolvedStatus(user.mpn);
      line.(user := user,
            availabilityStatus := status,
            matchStatus := status,
            lifecycleStatus := "Unknown",
            totalAvail := 0,
            factoryLeadDays := None,
            htsCode := None,
            countryOfOrigin := None,
            category := None,
            agentBrief := None,
            riskLevel := Unknown)
  }

  function NewUser(row: nat, input: NewLineInput): LineUser {
    LineUser(row, input.mpn, input.manufacturer, input.quantity, input.refdes, input.description)
  }

  function NewLine(row: nat, input: NewLineInput): AnalyzedLine {
    var status := UnresolvedStatus(input.mpn);
    AnalyzedLine(NewUser(row, input), [], status, "Unknown", status, None, 0, Unknown,
                 None, None, None, NO_TARIFF, None)
  }

  /** One more than the largest row in use, 0 for an empty BOM. */
  function NextRow(users: seq<LineUser>): (r: nat)
    ensures forall i :: 0 <= i < |users| ==> users[i].rowIndex < r
    ensures users == [] <==> r == 0
  {
    if users == [] then 0
    else
      var rest := NextRow(users[1..]);
      if users[0].rowIndex < rest then rest else users[0].rowIndex + 1
  }

  function EditLines(lines: seq<AnalyzedLine>, op: EditOp): Option<seq<AnalyzedLine>> {
    match op
    case ReplaceLines(ls) => Some(ls)
    case PatchLine(i, p) => if i < |lines| then Some(lines[i := PatchedLine(lines[i], p)]) else None
    case DeleteLine(i) => if i < |lines| then Some(lines[..i] + lines[i + 1..]) else None
    case AddLine(input) => Some(lines + [NewLine(NextRow(Users(lines)), input)])
  }

  // ----- the same edits on what the customer controls -----

  /** The part of a line that only the customer changes. */
  datatype Core = Core(user: LineUser, amlCandidates: seq<string>, tariff: TariffOverlay)

  function CoreOf(line: AnalyzedLine): Core { Core(line.user, line.amlCandidates, line.tariff) }

  function Cores(lines: seq<AnalyzedLine>): (r: seq<Core>)
    ensures |r| == |lines|
    ensures forall i :: 0 <= i < |lines| ==> r[i] == CoreOf(lines[i])
  {
    seq(|lines|, i requires 0 <= i < |lines| => CoreOf(lines[i]))
  }

  function CoreUsers(cores: seq<Core>): (r: seq<LineUser>)
    ensures |r| == |cores|
    ensures forall i :: 0 <= i < |cores| ==> r[i] == cores[i].user
  {
    seq(|cores|, i requires 0 <= i < |cores| => cores[i].user)
  }

  function EditCores(cores: seq<Core>, op: EditOp): Option<seq<Core>> {
    match op
    case ReplaceLines(ls) => Some(Cores(ls))
    case PatchLine(i, p) =>
      if i < |cores| then Some(cores[i := cores[i].(user := PatchUser(cores[i].user, p))]) else None
    case DeleteLine(i) => if i < |cores| then Some(cores[..i] + cores[i + 1..]) else None
    case AddLine(input) => Some(cores + [Core(NewUser(NextRow(CoreUsers(cores)), input), [], NO_TARIFF)])
  }

  /** An edit of full lines does to their cores what the customer asked, and fails on the same
      line indices. */
  lemma EditLinesOnCores(lines: seq<AnalyzedLine>, op: EditOp)
    ensures EditLines(lines, op).None? <==> EditCores(Cores(lines), op).None?
    ensures EditLines(lines, op).Some? ==>
              EditCores(Cores(lines), op) == Some(Cores(EditLines(lines, op).value))
  {
    assert CoreUsers(Cores(lines)) == Users(lines);
    if EditLines(lines, op).Some? {
      assert EditCores(Cores(lines), op).value == Cores(EditLines(lines, op).value);
    }
  }

  ghost predicate DistinctRows(lines: seq<AnalyzedLine>) {
    forall i, j :: 0 <= i < j < |lines| ==> lines[i].user.rowIndex != lines[j].user.rowIndex
  }

  /** Patching, deleting and adding keep row indices distinct; a wholesale replacement has
      the rows it is given. */
  lemma EditKeepsRowsDistinct(lines: seq<AnalyzedLine>, op: EditOp)
    requires DistinctRows(lines) && EditLines(lines, op).Some?
    ensures !op.ReplaceLines? ==> DistinctRows(EditLines(lines, op).value)
    ensures op.ReplaceLines? ==> (DistinctRows(EditLines(lines, op).value) <==> DistinctRows(op.lines))
  {}

  // ----- one edit of one BOM -----

  /** What an edit writes, computed from the loaded documents: metadata and analyze, or the
      error that stops it. */
  function EditBom(m: BomMetadata, a: AnalyzeResult, expected: nat, op: EditOp, now: int)
    : Result<BomRecord, StoreError>
  {
    var summary := NormalizeSummary(m.summary);
    if summary.version != expected then Err(Conflict)
    else
      match EditLines(a.lines, op)
      case None => Err(LineNotFound)
      case Some(lines) =>
        var edited := Finalize(a.(lines := lines));
        Ok(BomRecord(BumpAfterEdit(summary, edited, now), edited))
  }

  // ----- the index -----

  function Lookup(index: seq<BomSummary>, id: string): Option<BomSummary> {
    if index == [] then None
    else if index[0].id == id then Some(index[0])
    else Lookup(index[1..], id)
  }

  /** Replace the first entry of that id, if there is one. */
  function ReplaceEntry(index: seq<BomSummary>, id: string, s: BomSummary): seq<BomSummary> {
    if index == [] then []
    else if index[0].id == id then [s] + index[1..]
    else [index[0]] + ReplaceEntry(index[1..], id, s)
  }

  function Upsert(index: seq<BomSummary>, s: BomSummary): seq<BomSummary> {
    if Lookup(index, s.id).Some? then ReplaceEntry(index, s.id, s) else index + [s]
  }

  /** `retain(|item| item.id != id)`. */
  function Without(index: seq<BomSummary>, id: string): seq<BomSummary> {
    if index == [] then []
    else (if index[0].id == id then [] else [index[0]]) + Without(index[1..], id)
  }

  ghost predicate DistinctIds(index: seq<BomSummary>) {
    forall i, j :: 0 <= i < j < |index| ==> index[i].id != index[j].id
  }

  ghost predicate HasId(index: seq<BomSummary>, id: string) {
    exists i :: 0 <= i < |index| && index[i].id == id
  }

  lemma {:induction false} LookupSome(index: seq<BomSummary>, id: string)
    ensures Lookup(index, id).Some? <==> HasId(index, id)
    ensures Lookup(index, id).Some? ==> Lookup(index, id).value in index && Lookup(index, id).value.id == id
  {
    if index != [] {
      LookupSome(index[1..], id);
      if index[0].id != id {
        assert forall i :: 0 < i < |index| ==> index[i] == index[1..][i - 1];
        assert forall i :: 0 <= i < |index| - 1 ==> index[1..][i] == index[i + 1];
      } else {
        assert index[0] in index;
      }
    }
  }

  lemma {:induction false} LookupAt(index: seq<BomSummary>, i: nat)
    requires DistinctIds(index) && i < |index|
    ensures Lookup(index, index[i].id) == Some(index[i])
  {
    if i > 0 {
      assert index[1..][i - 1] == index[i];
      LookupAt(index[1..], i - 1);
    }
  }

  /** Replacing an entry is invisible to every other id and keeps ids distinct. */
  lemma {:induction false} ReplaceEntryFacts(index: seq<BomSummary>, id: string, s: BomSummary)
    requires s.id == id
    ensures |ReplaceEntry(index, id, s)| == |index|
    ensures forall i :: 0 <= i < |index| ==> ReplaceEntry(index, id, s)[i].id == index[i].id
    ensures DistinctIds(index) ==> DistinctIds(ReplaceEntry(index, id, s))
    ensures forall other :: Lookup(ReplaceEntry(index, id, s), other)
                            == if other == id && Lookup(index, id).Some? then Some(s) else Lookup(index, other)
  {
    if index != [] {
      ReplaceEntryFacts(index[1..], id, s);
      var r := ReplaceEntry(index, id, s);
      assert r[1..] == if index[0].id == id then index[1..] else ReplaceEntry(index[1..], id, s);
      forall i | 0 <= i < |index| ensures r[i].id == index[i].id {
        if i > 0 { assert r[i] == r[1..][i - 1]; assert index[i] == index[1..][i - 1]; }
      }
    }
  }

  lemma {:induction false} LookupAppend(index: seq<BomSummary>, s: BomSummary, id: string)
    ensures Lookup(index + [s], id)
            == if Lookup(index, id).Some? then Lookup(index, id) else if s.id == id then Some(s) else None
  {
    if index == [] {
      assert index + [s] == [s];
    } else {
      assert (index + [s])[1..] == index[1..] + [s];
      LookupAppend(index[1..], s, id);
    }
  }

  lemma UpsertFacts(index: seq<BomSummary>, s: BomSummary)
    ensures DistinctIds(index) ==> DistinctIds(Upsert(index, s))
    ensures forall id :: Lookup(Upsert(index, s), id) == if id == s.id then Some(s) else Lookup(index, id)
  {
    LookupSome(index, s.id);
    ReplaceEntryFacts(index, s.id, s);
    forall id ensures Lookup(Upsert(index, s), id) == if id == s.id then Some(s) else Lookup(index, id) {
      LookupAppend(index, s, id);
    }
  }

  lemma {:induction false} WithoutMembers(index: seq<BomSummary>, id: string, x: BomSummary)
    ensures x in Without(index, id) <==> x in index && x.id != id
  {
    if index != [] {
      WithoutMembers(index[1..], id, x);
      assert index == [index[0]] + index[1..];
    }
  }

  lemma {:induction false} WithoutDistinct(index: seq<BomSummary>, id: string)
    requires DistinctIds(index)
    ensures DistinctIds(Without(index, id))
  {
    if index != [] {
      var rest := Without(index[1..], id);
      WithoutDistinct(index[1..], id);
      forall j | 0 <= j < |rest| ensures rest[j].id != index[0].id {
        WithoutMembers(index[1..], id, rest[j]);
      }
    }
  }

  lemma {:induction false} WithoutLookup(index: seq<BomSummary>, id: string, other: string)
    ensures Lookup(Without(index, id), other) == if other == id then None else Lookup(index, other)
  {
    if index != [] {
      WithoutLookup(index[1..], id, other);
      if index[0].id != id {
        assert Without(index, id)[1..] == Without(index[1..], id);
      } else {
        assert Without(index, id) == Without(index[1..], id);
      }
    }
  }

  lemma {:induction false} WithoutLength(index: seq<BomSummary>, id: string)
    ensures |Without(index, id)| <= |index|
    ensures |Without(index, id)| == |index| <==> Lookup(index, id).None?
  {
    if index != [] {
      WithoutLength(index[1..], id);
    }
  }

  lemma {:induction false} ReplaceEntryAt(index: seq<BomSummary>, id: string, s: BomSummary, k: nat)
    requires k < |index| && index[k].id == id
    requires forall j :: 0 <= j < k ==> index[j].id != id
    ensures ReplaceEntry(index, id, s) == index[k := s]
    ensures Lookup(index, id) == Some(index[k])
  {
    if k > 0 {
      assert index[1..][k - 1] == index[k];
      assert forall j :: 0 <= j < k - 1 ==> index[1..][j] == index[j + 1];
      ReplaceEntryAt(index[1..], id, s, k - 1);
      assert index[k := s] == [index[0]] + index[1..][k - 1 := s];
    } else {
      assert index[0 := s] == [s] + index[1..];
    }
  }

  // ----- whole calls on the documents -----

  /** `persist_bom`: both documents under the summary's own id, then the index. */
  function Persist(d: Docs, m: BomMetadata, a: AnalyzeResult): Docs {
    Docs(d.metadata[m.summary.id := m],
         d.analyze[m.summary.id := WithoutBriefs(a)],
         Upsert(d.index, m.summary))
  }

  function LoadError(d: Docs, id: string): bool { id !in d.metadata || id !in d.analyze }

  /** A whole edit call: the documents it leaves and what it returns. */
  function ApplyEdit(d: Docs, id: string, expected: nat, op: EditOp, now: int)
    : (Docs, Result<BomRecord, StoreError>)
  {
    if LoadError(d, id) then (d, Err(NotFound))
    else
      match EditBom(d.metadata[id], d.analyze[id], expected, op, now)
      case Err(e) => (d, Err(e))
      case Ok(record) =>
        (Persist(d, d.metadata[id].(summary := record.summary), record.analyze), Ok(record))
  }

  /** The summary a refresh writes: identity and version stay those on disk. */
  function RefreshedSummary(disk: BomSummary, refreshed: BomSummary): BomSummary {
    refreshed.(version := disk.version,
               updatedAt := disk.updatedAt,
               id := disk.id,
               name := disk.name,
               filename := disk.filename,
               uploadedAt := disk.uploadedAt)
  }

  /** A whole compare-and-write call of a refresh. */
  function ApplyCas(d: Docs, id: string, expected: nat, a: AnalyzeResult, summary: BomSummary)
    : (Docs, Result<bool, StoreError>)
  {
    if id !in d.metadata then (d, Err(NotFound))
    else if d.metadata[id].summary.version != expected then (d, Ok(false))
    else
      var next := RefreshedSummary(d.metadata[id].summary, summary);
      (Docs(d.metadata[id := d.metadata[id].(summary := next)],
            d.analyze[id := a],
            ReplaceEntry(d.index, id, next)),
       Ok(true))
  }

  /** A creation takes its id from the upload. */
  function NewSummary(name: string, filename: string, a: AnalyzeResult, now: int): BomSummary {
    WithFigures(BomSummary(a.uploadId, name, filename, now, 1, Some(now), 0, 0.0, 0, 0, 0, ""), a)
  }

  function ApplyCreate(d: Docs, m: BomMetadata, a: AnalyzeResult): Docs {
    Docs(d.metadata[m.summary.id := m],
         d.analyze[m.summary.id := WithoutBriefs(a)],
         Without(d.index, m.summary.id) + [m.summary])
  }

  function ApplyDelete(d: Docs, id: string): (Docs, Result<(), StoreError>) {
    if Lookup(d.index, id).None? then (d, Err(NotFound))
    else (Docs(d.metadata - {id}, d.analyze - {id}, Without(d.index, id)), Ok(()))
  }

  function GetBom(d: Docs, id: string): Result<BomRecord, StoreError> {
    if LoadError(d, id) then Err(NotFound)
    else Ok(BomRecord(NormalizeSummary(d.metadata[id].summary), d.analyze[id]))
  }

  /** Newest upload first (`list_boms`). */
  predicate NewerFirst(a: BomSummary, b: BomSummary) { a.uploadedAt >= b.uploadedAt }

  function NormalizedIndex(index: seq<BomSummary>): (r: seq<BomSummary>)
    ensures |r| == |index|
    ensures forall i :: 0 <= i < |index| ==> r[i] == NormalizeSummary(index[i])
  {
    seq(|index|, i requires 0 <= i < |index| => NormalizeSummary(index[i]))
  }

  function ListBoms(d: Docs): seq<BomSummary> {
    Sorting.StableSort(NormalizedIndex(d.index), NewerFirst)
  }

  datatype FlaggedItem = FlaggedItem(bomId: string, bomName: string, bomVersion: nat, line: AnalyzedLine)

  function FlaggedItems(r: BomRecord): seq<FlaggedItem> {
    ItemsOf(r.summary, Filter(r.analyze.lines, IsFlagged))
  }

  function ItemsOf(s: BomSummary, lines: seq<AnalyzedLine>): seq<FlaggedItem> {
    if lines == [] then []
    else [FlaggedItem(s.id, s.name, s.version, lines[0])] + ItemsOf(s, lines[1..])
  }

  /** Flagged lines of the listed BOMs; with `skip`, those counted as clear are not read. */
  function CollectFlagged(d: Docs, summaries: seq<BomSummary>, skip: bool): Result<seq<FlaggedItem>, StoreError> {
    if summaries == [] then Ok([])
    else if skip && summaries[0].atRiskCount == 0 then CollectFlagged(d, summaries[1..], skip)
    else
      match GetBom(d, summaries[0].id)
      case Err(e) => Err(e)
      case Ok(record) =>
        match CollectFlagged(d, summaries[1..], skip)
        case Err(e) => Err(e)
        case Ok(rest) => Ok(FlaggedItems(record) + rest)
  }

  // ----- the store -----

  class Store {
    var metadata: map<string, BomMetadata>
    var analyze: map<string, AnalyzeResult>
    var index: seq<BomSummary>

    constructor ()
      ensures Stored() == Docs(map[], map[], [])
    {
      metadata, analyze, index := map[], map[], [];
    }

    function Stored(): Docs
      reads this
    {
      Docs(metadata, analyze, index)
    }

    /** Position of the first index entry of that id. */
    method FindEntry(id: string) returns (found: Option<nat>)
      ensures found.None? <==> Lookup(index, id).None?
      ensures found.Some? ==> found.value < |index| && index[found.value].id == id
      ensures found.Some? ==> forall j :: 0 <= j < found.value ==> index[j].id != id
    {
      LookupSome(index, id);
      for i := 0 to |index|
        invariant forall j :: 0 <= j < i ==> index[j].id != id
      {
        if index[i].id == id {
          return Some(i);
        }
      }
      found := None;
    }

    method PersistBom(m: BomMetadata, a: AnalyzeResult)
      modifies this
      ensures Stored() == Persist(old(Stored()), m, a)
    {
      analyze := analyze[m.summary.id := WithoutBriefs(a)];
      metadata := metadata[m.summary.id := m];
      var entry := FindEntry(m.summary.id);
      if entry.Some? {
        ReplaceEntryAt(index, m.summary.id, m.summary, entry.value);
        index := index[entry.value := m.summary];
      } else {
        index := index + [m.summary];
      }
    }

    /** The common path of the four edits: load, check the version, change the lines,
        finalise, bump, persist. */
    method EditWith(id: string, expected: nat, op: EditOp, now: int) returns (r: Result<BomRecord, StoreError>)
      modifies this
      ensures (Stored(), r) == ApplyEdit(old(Stored()), id, expected, op, now)
    {
      if id !in metadata || id !in analyze {
        return Err(NotFound);
      }
      var m := metadata[id].(summary := NormalizeSummary(metadata[id].summary));
      if m.summary.version != expected {
        return Err(Conflict);
      }
      var lines := EditLines(analyze[id].lines, op);
      if lines.None? {
        return Err(LineNotFound);
      }
      var edited := FinalizeAnalyze(analyze[id].(lines := lines.value));
      m := m.(summary := BumpAfterEdit(m.summary, edited, now));
      PersistBom(m, edited);
      r := Ok(BomRecord(m.summary, edited));
    }

    /** `update_analyze_and_summary_cas`: write only while the stored version is the one the
        refresh read; metadata first, then analyze, then the index entry if there is one. */
    method UpdateAnalyzeAndSummaryCas(id: string, expected: nat, a: AnalyzeResult, summary: BomSummary)
      returns (r: Result<bool, StoreError>)
      modifies this
      ensures (Stored(), r) == ApplyCas(old(Stored()), id, expected, a, summary)
    {
      if id !in metadata {
        return Err(NotFound);
      }
      var m := metadata[id];
      if m.summary.version != expected {
        return Ok(false);
      }
      m := m.(summary := RefreshedSummary(m.summary, summary));
      metadata := metadata[id := m];
      analyze := analyze[id := a];
      var entry := FindEntry(id);
      if entry.Some? {
        ReplaceEntryAt(index, id, m.summary, entry.value);
        index := index[entry.value := m.summary];
      } else {
        ReplaceAbsent(index, id, m.summary);
      }
      r := Ok(true);
    }

    method CreateBom(name: string, filename: string, uploadedBy: Option<string>, a: AnalyzeResult, now: int)
      returns (s: BomSummary)
      modifies this
      ensures s == NewSummary(name, filename, a, now)
      ensures Stored() == ApplyCreate(old(Stored()), BomMetadata(s, uploadedBy), a)
    {
      var id := a.uploadId;
      s := NewSummary(name, filename, a, now);
      analyze := analyze[id := WithoutBriefs(a)];
      metadata := metadata[id := BomMetadata(s, uploadedBy)];
      var kept := RetainOthers(id);
      index := kept + [s];
    }

    method DeleteBom(id: string) returns (r: Result<(), StoreError>)
      modifies this
      ensures (Stored(), r) == ApplyDelete(old(Stored()), id)
    {
      var kept := RetainOthers(id);
      WithoutLength(index, id);
      if |kept| == |index| {
        return Err(NotFound);
      }
      index := kept;
      metadata := metadata - {id};
      analyze := analyze - {id};
      r := Ok(());
    }

    method RetainOthers(id: string) returns (kept: seq<BomSummary>)
      ensures kept == Without(index, id)
    {
      kept := [];
      for i := 0 to |index|
        invariant Without(index, id) == kept + Without(index[i..], id)
      {
        assert index[i..][1..] == index[i + 1..];
        if index[i].id != id {
          kept := kept + [index[i]];
        }
      }
      assert index[|index|..] == [];
    }

    /** `flagged_lines`: reads only the BOMs whose index entry counts a line at risk. */
    method FlaggedLines() returns (r: Result<seq<FlaggedItem>, StoreError>)
      ensures r == CollectFlagged(Stored(), ListBoms(Stored()), true)
    {
      var summaries := ListBoms(Stored());
      var items: seq<FlaggedItem> := [];
      var i := 0;
      assert summaries[0..] == summaries;
      PrependNone(CollectFlagged(Stored(), summaries, true));
      while i < |summaries|
        invariant 0 <= i <= |summaries|
        invariant CollectFlagged(Stored(), summaries, true)
                  == PrependItems(items, CollectFlagged(Stored(), summaries[i..], true))
      {
        assert summaries[i..][1..] == summaries[i + 1..];
        if summaries[i].atRiskCount != 0 {
          var record := GetBom(Stored(), summaries[i].id);
          if record.Err? {
            return Err(record.error);
          }
          PrependTwice(items, FlaggedItems(record.value), CollectFlagged(Stored(), summaries[i + 1..], true));
          items := items + FlaggedItems(record.value);
        }
        i := i + 1;
      }
      assert summaries[i..] == [] && items + [] == items;
      r := Ok(items);
    }
  }

  function PrependItems(items: seq<FlaggedItem>, r: Result<seq<FlaggedItem>, StoreError>)
    : Result<seq<FlaggedItem>, StoreError>
  {
    match r
    case Ok(rest) => Ok(items + rest)
    case Err(e) => Err(e)
  }

  lemma PrependNone(r: Result<seq<FlaggedItem>, StoreError>)
    ensures PrependItems([], r) == r
  {
    if r.Ok? {
      assert [] + r.value == r.value;
    }
  }

  lemma PrependTwice(a: seq<FlaggedItem>, b: seq<FlaggedItem>, r: Result<seq<FlaggedItem>, StoreError>)
    ensures PrependItems(a, PrependItems(b, r)) == PrependItems(a + b, r)
  {
    if r.Ok? {
      assert a + (b + r.value) == (a + b) + r.value;
    }
  }

  lemma {:induction false} ReplaceAbsent(index: seq<BomSummary>, id: string, s: BomSummary)
    requires Lookup(index, id).None?
    ensures ReplaceEntry(index, id, s) == index
  {
    if index != [] {
      ReplaceAbsent(index[1..], id, s);
    }
  }
}
