/** Refreshing a BOM from the part cache (`daily_refresh.rs`): the enrichment service's batch
    answer, overlaid on the lines by position and rescored. */
module CachedRefresh {
  import opened Prelude
  import opened PartKeys
  import opened SnapshotCodec
  import opened PartStore
  import Analyze
  import BomProtocol
  import Enrichment
  import Text
  import Worker

  function QueryOfLine(line: Analyze.AnalyzedLine): PartQuery {
    PartQuery(line.user.mpn.GetOr(""), line.user.manufacturer)
  }

  function QueriesOf(lines: seq<Analyze.AnalyzedLine>): (queries: seq<PartQuery>)
    ensures |queries| == |lines|
    ensures forall i :: 0 <= i < |lines| ==> queries[i] == QueryOfLine(lines[i])
  {
    seq(|lines|, i requires 0 <= i < |lines| => QueryOfLine(lines[i]))
  }

  function LeadDays(r: Enrichment.EnrichResult): Option<int> {
    if r.factoryLeadDays.Some? then Some(r.factoryLeadDays.value) else None
  }

  /** A result as the gateway reads it. */
  function Received(r: Enrichment.EnrichResult): Analyze.Enrichment {
    Analyze.Enrichment(r.inputIndex, AvailabilityText(r.availability), LifecycleText(r.lifecycle), MatchText(r.matchStatus),
                       LeadDays(r), r.totalAvail,
                       r.category, r.htsCode, r.countryOfOrigin)
  }

  function AllReceived(results: seq<Enrichment.EnrichResult>): (received: seq<Analyze.Enrichment>)
    ensures |received| == |results|
    ensures forall i :: 0 <= i < |results| ==> received[i] == Received(results[i])
  {
    seq(|results|, i requires 0 <= i < |results| => Received(results[i]))
  }

  /** What the service says about line `i`, by its own key, from the cache alone. */
  function CachedResult(a: Analyze.AnalyzeResult, i: nat, items: map<Key, Item>, env: Enrichment.Env): Enrichment.EnrichResult
    requires i < |a.lines|
  {
    Enrichment.LineResult(QueriesOf(a.lines), i, items, false, true, env)
  }

  /** Answers that come one per line, in order, reach their own lines. */
  lemma {:induction false} AnswersInOrder(enrich: seq<Analyze.Enrichment>, i: nat)
    requires forall j :: 0 <= j < |enrich| ==> enrich[j].inputIndex == j
    ensures Analyze.AnswerFor(enrich, i) == if i < |enrich| then Some(enrich[i]) else None
    decreases |enrich|
  {
    if enrich != [] {
      AnswersInOrder(enrich[..|enrich| - 1], i);
    }
  }

  /** Line `i` refreshed with its own cached result: the fields enrichment owns are the
      result's, gaps in the part data are filled, and the customer's fields stay. */
  ghost predicate RefreshedWith(before: Analyze.AnalyzedLine, after: Analyze.AnalyzedLine, r: Enrichment.EnrichResult) {
    && after.user == before.user
    && after.availabilityStatus == AvailabilityText(r.availability)
    && after.lifecycleStatus == LifecycleText(r.lifecycle)
    && after.matchStatus == MatchText(r.matchStatus)
    && after.factoryLeadDays == LeadDays(r) && after.totalAvail == r.totalAvail
    && after.tariff == before.tariff
    && after.category == (if before.category.Some? then before.category else r.category)
    && after.htsCode == (if before.htsCode.Some? then before.htsCode else r.htsCode)
    && after.countryOfOrigin == (if before.countryOfOrigin.Some? then before.countryOfOrigin else r.countryOfOrigin)
    && after.riskLevel == Analyze.ScoreRisk(after)
  }

  method RefreshRecordFromCache(t: Tables, p: Worker.Provider, a: Analyze.AnalyzeResult, env: Enrichment.Env) returns (a': Analyze.AnalyzeResult)
    requires p.answers == env.lookup
    modifies t, p`asked
    ensures p.asked == old(p.asked)
    ensures a.lines == [] ==> a' == a && t.items == old(t.items) && t.queue == old(t.queue)
    ensures |a'.lines| == |a.lines|
    ensures forall i :: 0 <= i < |a.lines| ==> RefreshedWith(a.lines[i], a'.lines[i], CachedResult(a, i, old(t.items), env))
    ensures exists enrich :: a' == BomProtocol.RefreshedAnalyze(a, enrich)
  {
    if a.lines == [] {
      assert a == BomProtocol.RefreshedAnalyze(a, []);
      return a;
    }
    ghost var items := t.items;
    var results := Enrichment.EnrichLines(t, p, QueriesOf(a.lines), false, true, env);
    var enrich := AllReceived(results);
    var lines := Analyze.ApplyEnrichmentResults(a.lines, enrich);
    a' := Analyze.FinalizeAnalyze(a.(lines := lines));
    assert a' == BomProtocol.RefreshedAnalyze(a, enrich);
    InOrder(a, results, items, env);
    forall i | 0 <= i < |a.lines| ensures RefreshedWith(a.lines[i], a'.lines[i], CachedResult(a, i, items, env)) {
      Overlays(a, results, i);
    }
  }

  lemma InOrder(a: Analyze.AnalyzeResult, results: seq<Enrichment.EnrichResult>, items: map<Key, Item>, env: Enrichment.Env)
    requires |results| == |a.lines|
    requires forall j :: 0 <= j < |a.lines| ==> results[j] == CachedResult(a, j, items, env)
    ensures forall j :: 0 <= j < |results| ==> AllReceived(results)[j].inputIndex == j
  {
    forall j | 0 <= j < |results| ensures AllReceived(results)[j].inputIndex == j {
      Enrichment.PerLine(QueriesOf(a.lines), j, j, items, false, true, env);
    }
  }

  lemma FinalLine(a: Analyze.AnalyzeResult, lines: seq<Analyze.AnalyzedLine>, i: nat)
    requires i < |lines|
    ensures var final := Analyze.Finalize(a.(lines := lines)).lines;
            |final| == |lines| && final[i] == lines[i].(riskLevel := Analyze.ScoreRisk(lines[i]))
  {}

  lemma OverlayOf(line: Analyze.AnalyzedLine, r: Enrichment.EnrichResult)
    ensures var overlaid := Analyze.Overlay(line, Some(Received(r)));
            RefreshedWith(line, overlaid.(riskLevel := Analyze.ScoreRisk(overlaid)), r)
  {
    Analyze.ScoreIgnoresLevel(Analyze.Overlay(line, Some(Received(r))));
  }

  lemma Overlays(a: Analyze.AnalyzeResult, results: seq<Enrichment.EnrichResult>, i: nat)
    requires |results| == |a.lines| && i < |a.lines|
    requires forall j :: 0 <= j < |results| ==> AllReceived(results)[j].inputIndex == j
    ensures var lines := Analyze.Overlaid(a.lines, AllReceived(results));
            && |Analyze.Finalize(a.(lines := lines)).lines| == |a.lines|
            && RefreshedWith(a.lines[i], Analyze.Finalize(a.(lines := lines)).lines[i], results[i])
  {
    var lines := Analyze.Overlaid(a.lines, AllReceived(results));
    AnswersInOrder(AllReceived(results), i);
    FinalLine(a, lines, i);
    OverlayOf(a.lines[i], results[i]);
  }

  // ----- scores of refreshed lines -----

  /** The score in terms of what the service answered: the texts that travel between the two
      services are compared without regard to case. */
  function ScoreOf(tariff: Analyze.TariffOverlay, r: Enrichment.EnrichResult): Analyze.RiskLevel {
    if tariff.entityListMatch == Some(true) then Analyze.Red
    else if r.availability.PendingLookup? || r.availability.NoMatch? || r.matchStatus.PendingMatch? then Analyze.Unknown
    else if r.lifecycle.Eol? || r.lifecycle.Discontinued? || (tariff.totalDutyPct.Some? && tariff.totalDutyPct.value >= 25.0)
    then Analyze.Red
    else if r.availability.Failed? || r.availability.OutOfStock? || r.lifecycle.Nrnd?
            || (r.factoryLeadDays.Some? && r.factoryLeadDays.value > 182) || 0 < r.totalAvail < 100
    then Analyze.Yellow
    else Analyze.Green
  }

  lemma AvailabilityLower(a: Availability)
    ensures Text.Lower(AvailabilityText(a)) == match a
                                               case InStock => "instock"
                                               case OutOfStock => "outofstock"
                                               case NoMatch => "nomatch"
                                               case Failed => "error"
                                               case PendingLookup => "pending"
  {}

  lemma LifecycleLower(l: Lifecycle)
    ensures Text.Lower(LifecycleText(l)) == match l
                                            case Active => "active"
                                            case Eol => "eol"
                                            case Nrnd => "nrnd"
                                            case Discontinued => "discontinued"
                                            case Unknown => "unknown"
  {}

  lemma MatchLower(m: MatchStatus)
    ensures Text.Lower(MatchText(m)) == match m
                                        case Exact => "exact"
                                        case Fuzzy => "fuzzy"
                                        case NoneMatched => "none"
                                        case PendingMatch => "pending"
  {}

  lemma PendingIff(after: Analyze.AnalyzedLine, r: Enrichment.EnrichResult)
    requires after.availabilityStatus == AvailabilityText(r.availability) && after.matchStatus == MatchText(r.matchStatus)
    ensures Analyze.IsPendingLine(after) <==> r.availability.PendingLookup? || r.matchStatus.PendingMatch?
    ensures Analyze.IsUnscoredLine(after) <==> Analyze.IsPendingLine(after) || r.availability.NoMatch?
  {
    AvailabilityLower(r.availability);
    MatchLower(r.matchStatus);
    assert Text.Lower("pending") == "pending" && Text.Lower("nomatch") == "nomatch";
  }

  /** The texts agree: a refreshed line is scored by what the service answered. */
  lemma ScoreAgrees(before: Analyze.AnalyzedLine, after: Analyze.AnalyzedLine, r: Enrichment.EnrichResult)
    requires RefreshedWith(before, after, r)
    ensures after.riskLevel == ScoreOf(before.tariff, r)
  {
    PendingIff(after, r);
    AvailabilityLower(r.availability);
    LifecycleLower(r.lifecycle);
  }
}
