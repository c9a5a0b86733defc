/** Risk scoring of an analysed bill of materials (`analyze.rs`) and the portfolio
    figures derived from it (`boms/types.rs`). */
module Analyze {
  import opened Prelude
  import Sorting
  import Text

  datatype RiskLevel = Red | Yellow | Green | Unknown

  /** What the customer's file or an edit says about a line. */
  datatype LineUser = LineUser(
    rowIndex: nat,
    mpn: Option<string>,
    manufacturer: Option<string>,
    quantity: Option<real>,
    refdes: Option<string>,
    description: Option<string>
  )

  /** What the tariff service says about a line. */
  datatype TariffOverlay = TariffOverlay(
    confidence: Option<string>,
    baseDutyPct: Option<real>,
    section301Pct: Option<real>,
    totalDutyPct: Option<real>,
    notes: Option<string>,
    rateBasis: Option<string>,
    isStale: Option<bool>,
    disclaimer: Option<string>,
    entityListMatch: Option<bool>,
    entityListNotes: Option<string>
  )

  const NO_TARIFF := TariffOverlay(None, None, None, None, None, None, None, None, None, None)

  datatype AnalyzedLine = AnalyzedLine(
    user: LineUser,
    amlCandidates: seq<string>,
    availabilityStatus: string,
    lifecycleStatus: string,
    matchStatus: string,
    factoryLeadDays: Option<int>,
    totalAvail: int,
    riskLevel: RiskLevel,
    category: Option<string>,
    htsCode: Option<string>,
    countryOfOrigin: Option<string>,
    tariff: TariffOverlay,
    agentBrief: Option<string>
  )

  datatype AnalyzeSummary = AnalyzeSummary(
    total: nat,
    inStock: nat,
    outOfStock: nat,
    eolOrNrnd: nat,
    noMatch: nat,
    errorCount: nat,
    longLead: nat,
    redCount: nat,
    yellowCount: nat,
    greenCount: nat,
    unknownCount: nat,
    pendingCount: nat
  )

  datatype AnalyzeResult = AnalyzeResult(
    uploadId: string,
    sourceFilename: string,
    summary: AnalyzeSummary,
    lines: seq<AnalyzedLine>,
    topRisks: seq<AnalyzedLine>,
    analyzedAt: int
  )

  /** One answer of the enrichment service, as far as a line keeps it. */
  datatype Enrichment = Enrichment(
    inputIndex: nat,
    availabilityStatus: string,
    lifecycleStatus: string,
    matchStatus: string,
    factoryLeadDays: Option<int>,
    totalAvail: int,
    category: Option<string>,
    htsCode: Option<string>,
    countryOfOrigin: Option<string>
  )

  // ----- scoring -----

  predicate IsPendingLine(line: AnalyzedLine) {
    Text.EqIgnoreCase(line.availabilityStatus, "pending") || Text.EqIgnoreCase(line.matchStatus, "pending")
  }

  predicate IsUnscoredLine(line: AnalyzedLine) {
    IsPendingLine(line) || Text.EqIgnoreCase(line.availabilityStatus, "nomatch")
  }

  function ScoreRisk(line: AnalyzedLine): RiskLevel {
    if line.tariff.entityListMatch == Some(true) then Red
    else if IsUnscoredLine(line) then Unknown
    else
      var availability := Text.Lower(line.availabilityStatus);
      var lifecycle := Text.Lower(line.lifecycleStatus);
      if lifecycle == "eol" || lifecycle == "discontinued"
         || (line.tariff.totalDutyPct.Some? && line.tariff.totalDutyPct.value >= 25.0)
      then Red
      else if availability == "error" || availability == "outofstock" || lifecycle == "nrnd"
              || (line.factoryLeadDays.Some? && line.factoryLeadDays.value > 182)
              || 0 < line.totalAvail < 100
      then Yellow
      else Green
  }

  function Scored(line: AnalyzedLine): AnalyzedLine {
    line.(riskLevel := ScoreRisk(line))
  }

  function Rescore(lines: seq<AnalyzedLine>): (r: seq<AnalyzedLine>)
    ensures |r| == |lines|
    ensures forall i :: 0 <= i < |lines| ==> r[i] == Scored(lines[i])
  {
    if lines == [] then [] else [Scored(lines[0])] + Rescore(lines[1..])
  }

  /** Red or yellow (`is_flagged_line`). */
  predicate IsFlagged(line: AnalyzedLine) { line.riskLevel.Red? || line.riskLevel.Yellow? }

  function CountLevel(lines: seq<AnalyzedLine>, level: RiskLevel): nat {
    CountIf(lines, (line: AnalyzedLine) => line.riskLevel == level)
  }

  function SummaryOf(lines: seq<AnalyzedLine>): AnalyzeSummary {
    AnalyzeSummary(
      |lines|,
      CountIf(lines, (l: AnalyzedLine) => Text.EqIgnoreCase(l.availabilityStatus, "instock")),
      CountIf(lines, (l: AnalyzedLine) => Text.EqIgnoreCase(l.availabilityStatus, "outofstock")),
      CountIf(lines, (l: AnalyzedLine) => Text.EqIgnoreCase(l.lifecycleStatus, "eol")
                                          || Text.EqIgnoreCase(l.lifecycleStatus, "nrnd")),
      CountIf(lines, (l: AnalyzedLine) => Text.EqIgnoreCase(l.availabilityStatus, "nomatch")),
      CountIf(lines, (l: AnalyzedLine) => Text.EqIgnoreCase(l.availabilityStatus, "error")),
      CountIf(lines, (l: AnalyzedLine) => l.factoryLeadDays.GetOr(0) > 26 * 7),
      CountLevel(lines, Red),
      CountLevel(lines, Yellow),
      CountLevel(lines, Green),
      CountLevel(lines, Unknown),
      CountIf(lines, IsPendingLine)
    )
  }

  function RiskPriority(level: RiskLevel): nat {
    match level
    case Red => 0
    case Yellow => 1
    case Green => 2
    case Unknown => 3
  }

  /** Ranking of `top_risks`: by priority, then by row. */
  predicate RanksBefore(a: AnalyzedLine, b: AnalyzedLine) {
    || RiskPriority(a.riskLevel) < RiskPriority(b.riskLevel)
    || (RiskPriority(a.riskLevel) == RiskPriority(b.riskLevel) && a.user.rowIndex <= b.user.rowIndex)
  }

  function Take<T>(xs: seq<T>, limit: nat): seq<T> { if |xs| <= limit then xs else xs[..limit] }

  function SelectTopRisks(lines: seq<AnalyzedLine>, limit: nat): seq<AnalyzedLine> {
    Take(Sorting.StableSort(Filter(lines, IsFlagged), RanksBefore), limit)
  }

  const TOP_RISKS: nat := 5

  function Finalize(a: AnalyzeResult): AnalyzeResult {
    var lines := Rescore(a.lines);
    a.(lines := lines, summary := SummaryOf(lines), topRisks := SelectTopRisks(lines, TOP_RISKS))
  }

  /** `finalize_analyze`: scores the lines in place, then recounts and re-ranks. */
  method FinalizeAnalyze(a: AnalyzeResult) returns (r: AnalyzeResult)
    ensures r == Finalize(a)
  {
    var lines := a.lines;
    var i := 0;
    while i < |lines|
      invariant 0 <= i <= |lines| == |a.lines|
      invariant forall k :: 0 <= k < i ==> lines[k] == Scored(a.lines[k])
      invariant forall k :: i <= k < |lines| ==> lines[k] == a.lines[k]
    {
      lines := lines[i := Scored(lines[i])];
      i := i + 1;
    }
    assert lines == Rescore(a.lines);
    r := a.(lines := lines, summary := SummaryOf(lines), topRisks := SelectTopRisks(lines, TOP_RISKS));
  }

  /** The lines carry their score and the summary counts those lines. */
  ghost predicate IsScored(a: AnalyzeResult) {
    && (forall i :: 0 <= i < |a.lines| ==> a.lines[i].riskLevel == ScoreRisk(a.lines[i]))
    && a.summary == SummaryOf(a.lines)
  }

  lemma ScoreIgnoresLevel(line: AnalyzedLine)
    ensures ScoreRisk(Scored(line)) == ScoreRisk(line)
  {}

  lemma FinalizeScores(a: AnalyzeResult)
    ensures IsScored(Finalize(a))
  {
    forall i | 0 <= i < |a.lines| ensures Finalize(a).lines[i].riskLevel == ScoreRisk(Finalize(a).lines[i]) {
      ScoreIgnoresLevel(a.lines[i]);
    }
  }

  /** A second `finalize_analyze` changes nothing. */
  lemma FinalizeIdempotent(a: AnalyzeResult)
    ensures Finalize(Finalize(a)) == Finalize(a)
  {
    FinalizeScores(a);
    assert Rescore(Finalize(a).lines) == Finalize(a).lines;
  }

  /** The four risk counts partition the lines, and the at-risk ones are the flagged ones. */
  lemma {:induction false} RiskCountsPartition(lines: seq<AnalyzedLine>)
    ensures CountLevel(lines, Red) + CountLevel(lines, Yellow) + CountLevel(lines, Green)
            + CountLevel(lines, Unknown) == |lines|
    ensures CountLevel(lines, Red) + CountLevel(lines, Yellow) == CountIf(lines, IsFlagged)
  {
    if lines != [] {
      RiskCountsPartition(lines[1..]);
    }
  }

  lemma {:induction false} CountZero(lines: seq<AnalyzedLine>, level: RiskLevel)
    ensures CountLevel(lines, level) == 0 <==> forall i :: 0 <= i < |lines| ==> lines[i].riskLevel != level
  {
    if lines != [] {
      CountZero(lines[1..], level);
      assert forall i :: 0 < i < |lines| ==> lines[i] == lines[1..][i - 1];
      assert forall i :: 0 <= i < |lines[1..]| ==> lines[1..][i] == lines[i + 1];
    }
  }

  // ----- top risks -----

  lemma RanksBeforeIsPreorder()
    ensures Sorting.TotalPreorder(RanksBefore)
  {}

  /** `top_risks` holds the min(5, flagged) best flagged lines in rank order: together with
      the excluded ones they are the flagged lines, and no excluded one ranks better. */
  lemma TopRisksAreBest(lines: seq<AnalyzedLine>, limit: nat)
    ensures var top := SelectTopRisks(lines, limit);
            var flagged := Filter(lines, IsFlagged);
            && |top| == (if |flagged| <= limit then |flagged| else limit)
            && Sorting.Ordered(top, RanksBefore)
            && multiset(top) <= multiset(flagged)
            && (forall x, y :: x in multiset(flagged) - multiset(top) && y in top ==> RanksBefore(y, x))
  {
    var flagged := Filter(lines, IsFlagged);
    var ranked := Sorting.StableSort(flagged, RanksBefore);
    RanksBeforeIsPreorder();
    Sorting.SortOrdered(flagged, RanksBefore);
    Sorting.SortElements(flagged, RanksBefore);
    PrefixOfRanked(ranked, if |ranked| <= limit then |ranked| else limit);
  }

  lemma PrefixOfRanked(ranked: seq<AnalyzedLine>, k: nat)
    requires Sorting.Ordered(ranked, RanksBefore) && k <= |ranked|
    ensures Sorting.Ordered(ranked[..k], RanksBefore)
    ensures multiset(ranked[..k]) <= multiset(ranked)
    ensures forall x, y :: x in multiset(ranked) - multiset(ranked[..k]) && y in ranked[..k] ==> RanksBefore(y, x)
  {
    var top := ranked[..k];
    assert ranked == top + ranked[k..];
    forall x, y | x in multiset(ranked) - multiset(top) && y in top ensures RanksBefore(y, x) {
      Sorting.PrefixIsBest(ranked, k, RanksBefore, x, y);
    }
  }

  // ----- portfolio figures (boms/types.rs) -----

  function AtRiskCount(s: AnalyzeSummary): nat { s.redCount + s.yellowCount }

  /** `total.saturating_sub(unknown_count)`. */
  function ScorableLineCount(s: AnalyzeSummary): nat {
    if s.unknownCount <= s.total then s.total - s.unknownCount else 0
  }

  /** `f64::round` on a non-negative value. */
  function Round(x: real): int { (x + 0.5).Floor }

  /** Share of scorable lines at risk on a 0-10 scale, to one decimal. */
  function OverallRiskScore(s: AnalyzeSummary): real {
    var scorable := ScorableLineCount(s);
    if scorable == 0 then 0.0
    else
      var ratio := AtRiskCount(s) as real / scorable as real;
      Round(ratio * 10.0 * 10.0) as real / 10.0
  }

  function PortfolioRiskBand(s: AnalyzeSummary): string {
    if s.redCount > 0 then "Critical"
    else if s.yellowCount > 0 then "Watch"
    else if s.unknownCount > 0 then "Unknown"
    else "Clear"
  }

  lemma RatioBounds(a: nat, b: nat)
    requires a <= b && 0 < b
    ensures 0.0 <= a as real / b as real <= 1.0
  {}

  /** For a finalised result the score stays on its scale, and the band is `Clear` exactly
      when every line is green. */
  lemma FinalizedFigures(a: AnalyzeResult)
    ensures var f := Finalize(a);
            && f.summary.redCount + f.summary.yellowCount + f.summary.greenCount
               + f.summary.unknownCount == f.summary.total == |a.lines|
            && 0.0 <= OverallRiskScore(f.summary) <= 10.0
            && (PortfolioRiskBand(f.summary) == "Clear"
                <==> forall i :: 0 <= i < |f.lines| ==> f.lines[i].riskLevel == Green)
  {
    var f := Finalize(a);
    RiskCountsPartition(f.lines);
    ScoreOnScale(f.summary);
    ClearIffGreen(f.lines, f.summary);
  }

  lemma ScoreOnScale(s: AnalyzeSummary)
    requires s.redCount + s.yellowCount + s.greenCount + s.unknownCount == s.total
    ensures 0.0 <= OverallRiskScore(s) <= 10.0
  {
    if ScorableLineCount(s) > 0 {
      RatioBounds(AtRiskCount(s), ScorableLineCount(s));
    }
  }

  lemma ClearIffGreen(lines: seq<AnalyzedLine>, s: AnalyzeSummary)
    requires s.redCount == CountLevel(lines, Red) && s.yellowCount == CountLevel(lines, Yellow)
    requires s.unknownCount == CountLevel(lines, Unknown)
    ensures PortfolioRiskBand(s) == "Clear" <==> forall i :: 0 <= i < |lines| ==> lines[i].riskLevel == Green
  {
    CountZero(lines, Red);
    CountZero(lines, Yellow);
    CountZero(lines, Unknown);
  }

  lemma RatioBelow(x: real, a: real, b: real)
    requires 0.0 < b && x * b == a
    ensures x * 100.0 < 0.5 <==> 200.0 * a < b
  {
    TimesPositive(x, 0.005, b);
  }

  lemma TimesPositive(x: real, y: real, c: real)
    requires 0.0 < c
    ensures x < y <==> x * c < y * c
  {}

  lemma RoundsToZero(x: real)
    requires 0.0 <= x
    ensures Round(x) as real / 10.0 == 0.0 <==> x < 0.5
  {}

  /** When the rounded score is zero, exactly: no line can be scored, or fewer than one in two
      hundred of those that can are at risk. */
  lemma ZeroScoreIff(s: AnalyzeSummary)
    ensures OverallRiskScore(s) == 0.0 <==> ScorableLineCount(s) == 0 || 200 * AtRiskCount(s) < ScorableLineCount(s)
  {
    var at, scorable := AtRiskCount(s), ScorableLineCount(s);
    if scorable > 0 {
      var ratio := at as real / scorable as real;
      RatioBelow(ratio, at as real, scorable as real);
      assert ratio * 10.0 * 10.0 == ratio * 100.0;
      RoundsToZero(ratio * 10.0 * 10.0);
    }
  }

  /** For a finalised result: the score is zero exactly when the flagged lines are none, or
      fewer than one in two hundred of the lines not Unknown; so with at most two hundred
      lines it is zero exactly when no line is flagged. */
  lemma ZeroScoreOfLines(a: AnalyzeResult)
    ensures var f := Finalize(a);
            var flagged := CountIf(f.lines, IsFlagged);
            && (OverallRiskScore(f.summary) == 0.0
                <==> flagged == 0 || 200 * flagged < |a.lines| - CountLevel(f.lines, Unknown))
            && (|a.lines| <= 200 ==> (OverallRiskScore(f.summary) == 0.0 <==> flagged == 0))
  {
    var f := Finalize(a);
    RiskCountsPartition(f.lines);
    ZeroScoreIff(f.summary);
  }

  /** So one red line among a thousand is rounded away. */
  lemma ZeroScoreCanHideRisk()
    ensures OverallRiskScore(AnalyzeSummary(1000, 0, 0, 0, 0, 0, 0, 1, 0, 999, 0, 0)) == 0.0
    ensures PortfolioRiskBand(AnalyzeSummary(1000, 0, 0, 0, 0, 0, 0, 1, 0, 999, 0, 0)) == "Critical"
  {
    ZeroScoreIff(AnalyzeSummary(1000, 0, 0, 0, 0, 0, 0, 1, 0, 999, 0, 0));
  }

  // ----- enrichment overlay -----

  /** Last answer for a position: a later answer replaces an earlier one in the map. */
  function AnswerFor(enrich: seq<Enrichment>, index: nat): Option<Enrichment> {
    if enrich == [] then None
    else if enrich[|enrich| - 1].inputIndex == index then Some(enrich[|enrich| - 1])
    else AnswerFor(enrich[..|enrich| - 1], index)
  }

  function Overlay(line: AnalyzedLine, answer: Option<Enrichment>): AnalyzedLine {
    match answer
    case None => line
    case Some(e) =>
      line.(availabilityStatus := e.availabilityStatus,
            lifecycleStatus := e.lifecycleStatus,
            matchStatus := e.matchStatus,
            factoryLeadDays := e.factoryLeadDays,
            totalAvail := e.totalAvail,
            category := if line.category.None? then e.category else line.category,
            htsCode := if line.htsCode.None? then e.htsCode else line.htsCode,
            countryOfOrigin := if line.countryOfOrigin.None? then e.countryOfOrigin else line.countryOfOrigin)
  }

  /** `apply_enrichment_results`: only the lines' enrichment fields change. */
  method ApplyEnrichmentResults(lines: seq<AnalyzedLine>, enrich: seq<Enrichment>) returns (r: seq<AnalyzedLine>)
    ensures r == Overlaid(lines, enrich)
  {
    var byIndex: map<nat, Enrichment> := map[];
    for k := 0 to |enrich|
      invariant forall i: nat :: AnswerFor(enrich[..k], i) == if i in byIndex then Some(byIndex[i]) else None
    {
      assert enrich[..k + 1][..k] == enrich[..k];
      byIndex := byIndex[enrich[k].inputIndex := enrich[k]];
    }
    assert enrich[..|enrich|] == enrich;
    r := lines;
    for i := 0 to |lines|
      invariant |r| == |lines|
      invariant forall k :: 0 <= k < i ==> r[k] == Overlay(lines[k], AnswerFor(enrich, k))
      invariant forall k :: i <= k < |lines| ==> r[k] == lines[k]
    {
      if i in byIndex {
        r := r[i := Overlay(r[i], Some(byIndex[i]))];
      }
    }
  }

  function Overlaid(lines: seq<AnalyzedLine>, enrich: seq<Enrichment>): (r: seq<AnalyzedLine>)
    ensures |r| == |lines|
    ensures Users(r) == Users(lines)
  {
    var r := seq(|lines|, i requires 0 <= i < |lines| => Overlay(lines[i], AnswerFor(enrich, i)));
    assert Users(r) == Users(lines);
    r
  }

  function Users(lines: seq<AnalyzedLine>): (r: seq<LineUser>)
    ensures |r| == |lines|
    ensures forall i :: 0 <= i < |lines| ==> r[i] == lines[i].user
  {
    seq(|lines|, i requires 0 <= i < |lines| => lines[i].user)
  }
}
