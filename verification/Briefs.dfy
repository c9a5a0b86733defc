/** Written briefs for flagged lines (`boms/briefs.rs`, and `apply_line_briefs` of
    `boms/analysis.rs`): which are kept, which are asked for, and when nothing is left to do. */
module Briefs {
  import opened Prelude
  import opened Analyze
  import Decimal
  import Text

  datatype LineBrief = LineBrief(fingerprint: string, text: string, updatedAt: int)

  type LineBriefs = map<string, LineBrief>

  function LineKey(row: nat): string { Decimal.FromNat(row) }

  function LevelName(level: RiskLevel): string {
    match level
    case Red => "Red"
    case Yellow => "Yellow"
    case Green => "Green"
    case Unknown => "Unknown"
  }

  /** The scored fields of a line, as one string. */
  function Fingerprint(line: AnalyzedLine): string {
    line.user.mpn.GetOr("") + "|" + line.user.manufacturer.GetOr("") + "|" + LevelName(line.riskLevel)
    + "|" + line.availabilityStatus + "|" + line.lifecycleStatus + "|" + line.matchStatus
    + "|" + (if line.factoryLeadDays.Some? then Decimal.FromInt(line.factoryLeadDays.value) else "")
    + "|" + Decimal.FromInt(line.totalAvail)
    + "|" + (if line.tariff.totalDutyPct.Some? then Decimal.Fixed4(line.tariff.totalDutyPct.value) else "")
    + "|" + (match line.tariff.entityListMatch case None => "" case Some(b) => if b then "true" else "false")
  }

  function KeyOf(line: AnalyzedLine): string { LineKey(line.user.rowIndex) }

  /** The stored brief still describes this line. */
  predicate IsCurrent(line: AnalyzedLine, briefs: LineBriefs) {
    && KeyOf(line) in briefs
    && briefs[KeyOf(line)].fingerprint == Fingerprint(line)
    && briefs[KeyOf(line)].text != ""
  }

  predicate NeedsBriefRefresh(lines: seq<AnalyzedLine>, briefs: LineBriefs) {
    exists i :: 0 <= i < |lines| && IsFlagged(lines[i]) && !IsCurrent(lines[i], briefs)
  }

  // ----- reconcile -----

  function Kept(lines: seq<AnalyzedLine>, existing: LineBriefs): LineBriefs {
    if lines == [] then map[]
    else
      var line := lines[|lines| - 1];
      var before := Kept(lines[..|lines| - 1], existing);
      if IsFlagged(line) && IsCurrent(line, existing) then before[KeyOf(line) := existing[KeyOf(line)]] else before
  }

  function ToAnalyze(lines: seq<AnalyzedLine>, existing: LineBriefs): seq<AnalyzedLine> {
    if lines == [] then []
    else
      var line := lines[|lines| - 1];
      ToAnalyze(lines[..|lines| - 1], existing)
      + (if IsFlagged(line) && !IsCurrent(line, existing) then [line] else [])
  }

  method ReconcileLineBriefs(lines: seq<AnalyzedLine>, existing: LineBriefs)
    returns (next: LineBriefs, toAnalyze: seq<AnalyzedLine>)
    ensures next == Kept(lines, existing) && toAnalyze == ToAnalyze(lines, existing)
  {
    next, toAnalyze := map[], [];
    for i := 0 to |lines|
      invariant next == Kept(lines[..i], existing) && toAnalyze == ToAnalyze(lines[..i], existing)
    {
      var line := lines[i];
      assert lines[..i + 1][..i] == lines[..i];
      if IsFlagged(line) {
        var key := KeyOf(line);
        if key in existing && existing[key].fingerprint == Fingerprint(line) && existing[key].text != "" {
          next := next[key := existing[key]];
        } else {
          toAnalyze := toAnalyze + [line];
        }
      }
    }
    assert lines[..|lines|] == lines;
  }

  // ----- apply -----

  /** Fold the model's answers into the kept briefs: a failed call keeps the prior brief of
      that row, a blank answer is dropped. */
  function Answered(next: LineBriefs, asked: seq<AnalyzedLine>, answers: seq<Option<string>>,
                    existing: LineBriefs, now: int): LineBriefs
    requires |asked| == |answers|
    decreases |asked|
  {
    if asked == [] then next
    else
      var last := |asked| - 1;
      var before := Answered(next, asked[..last], answers[..last], existing, now);
      var key := KeyOf(asked[last]);
      match answers[last]
      case None => if key in existing then before[key := existing[key]] else before
      case Some(text) =>
        if Text.IsBlank(text) then before
        else before[key := LineBrief(Fingerprint(asked[last]), text, now)]
  }

  /** The briefs after one pass over the lines, given the answers to its calls in order. */
  function Applied(lines: seq<AnalyzedLine>, existing: LineBriefs, answers: seq<Option<string>>, now: int): LineBriefs
    requires |answers| == |ToAnalyze(lines, existing)|
  {
    Answered(Kept(lines, existing), ToAnalyze(lines, existing), answers, existing, now)
  }

  /** `apply_line_briefs`, with the model's answers given in call order; `called` is the log of
      its calls. It stores the result only if it differs from what was stored. */
  method ApplyLineBriefs(lines: seq<AnalyzedLine>, existing: LineBriefs, answers: seq<Option<string>>, now: int)
    returns (next: LineBriefs, called: seq<AnalyzedLine>, wrote: bool)
    requires |answers| == |ToAnalyze(lines, existing)|
    ensures next == Applied(lines, existing, answers, now)
    ensures called == ToAnalyze(lines, existing)
    ensures wrote <==> next != existing
  {
    var kept, asked := ReconcileLineBriefs(lines, existing);
    next, called := kept, [];
    for i := 0 to |asked|
      invariant called == asked[..i]
      invariant next == Answered(kept, asked[..i], answers[..i], existing, now)
    {
      assert asked[..i + 1][..i] == asked[..i] && answers[..i + 1][..i] == answers[..i];
      var key := KeyOf(asked[i]);
      var answer := answers[i];
      called := called + [asked[i]];
      if answer.None? {
        if key in existing {
          next := next[key := existing[key]];
        }
        continue;
      }
      if Text.IsBlank(answer.value) {
        continue;
      }
      next := next[key := LineBrief(Fingerprint(asked[i]), answer.value, now)];
    }
    assert asked[..|asked|] == asked && answers[..|answers|] == answers;
    wrote := next != existing;
  }

  // ----- results -----

  /** `key` is the row of a flagged line. */
  ghost predicate IsFlaggedRow(lines: seq<AnalyzedLine>, key: string) {
    exists line :: line in lines && IsFlagged(line) && KeyOf(line) == key
  }

  lemma {:induction false} ToAnalyzeMembers(lines: seq<AnalyzedLine>, existing: LineBriefs, line: AnalyzedLine)
    ensures line in ToAnalyze(lines, existing) <==> line in lines && IsFlagged(line) && !IsCurrent(line, existing)
    decreases |lines|
  {
    if lines != [] {
      ToAnalyzeMembers(lines[..|lines| - 1], existing, line);
      assert lines == lines[..|lines| - 1] + [lines[|lines| - 1]];
    }
  }

  predicate HasCurrentBrief(line: AnalyzedLine, existing: LineBriefs, key: string) {
    IsFlagged(line) && IsCurrent(line, existing) && KeyOf(line) == key
  }

  /** `key` is the row of a line of `lines` that is flagged and has a current brief. */
  ghost predicate IsCurrentRow(lines: seq<AnalyzedLine>, existing: LineBriefs, key: string) {
    exists line :: line in lines && HasCurrentBrief(line, existing, key)
  }

  lemma CurrentRowLast(lines: seq<AnalyzedLine>, existing: LineBriefs, key: string)
    requires lines != []
    ensures var last := lines[|lines| - 1];
            IsCurrentRow(lines, existing, key) <==>
              IsCurrentRow(lines[..|lines| - 1], existing, key) || HasCurrentBrief(last, existing, key)
  {
    var front, last := lines[..|lines| - 1], lines[|lines| - 1];
    assert forall line :: line in lines <==> line in front || line == last;
  }

  lemma {:induction false} KeptAt(lines: seq<AnalyzedLine>, existing: LineBriefs, key: string)
    ensures key in Kept(lines, existing) <==> IsCurrentRow(lines, existing, key)
    ensures key in Kept(lines, existing) ==> key in existing && Kept(lines, existing)[key] == existing[key]
    decreases |lines|
  {
    if lines != [] {
      KeptAt(lines[..|lines| - 1], existing, key);
      CurrentRowLast(lines, existing, key);
    }
  }

  ghost predicate HasRow(lines: seq<AnalyzedLine>, key: string) {
    exists line :: line in lines && KeyOf(line) == key
  }

  /** Whatever the model answers, the stored briefs are of flagged rows only. */
  lemma BriefsAreOfFlaggedRows(lines: seq<AnalyzedLine>, existing: LineBriefs, answers: seq<Option<string>>, now: int)
    requires |answers| == |ToAnalyze(lines, existing)|
    ensures forall key :: key in Applied(lines, existing, answers, now) ==> IsFlaggedRow(lines, key)
  {
    forall key | key in Applied(lines, existing, answers, now) ensures IsFlaggedRow(lines, key) {
      var asked := ToAnalyze(lines, existing);
      AnsweredKeys(Kept(lines, existing), asked, answers, existing, now, key);
      KeptAt(lines, existing, key);
      AskedRow(lines, existing, key);
    }
  }

  lemma AskedRow(lines: seq<AnalyzedLine>, existing: LineBriefs, key: string)
    ensures HasRow(ToAnalyze(lines, existing), key) ==> IsFlaggedRow(lines, key)
  {
    if line :| line in ToAnalyze(lines, existing) && KeyOf(line) == key {
      ToAnalyzeMembers(lines, existing, line);
    }
  }

  lemma {:induction false} AnsweredKeys(next: LineBriefs, asked: seq<AnalyzedLine>, answers: seq<Option<string>>,
                                        existing: LineBriefs, now: int, key: string)
    requires |asked| == |answers|
    ensures key in Answered(next, asked, answers, existing, now) ==> key in next || HasRow(asked, key)
    decreases |asked|
  {
    if asked != [] {
      var last := |asked| - 1;
      AnsweredKeys(next, asked[..last], answers[..last], existing, now, key);
      RowLast(asked, key);
    }
  }

  /** Every call returned text worth storing. */
  ghost predicate AllAnswered(answers: seq<Option<string>>) {
    forall i :: 0 <= i < |answers| ==> answers[i].Some? && !Text.IsBlank(answers[i].value)
  }

  /** Flagged lines that share a row say the same thing; so it is when rows are distinct. */
  ghost predicate RowsAgree(lines: seq<AnalyzedLine>) {
    forall x, y :: x in lines && y in lines && IsFlagged(x) && IsFlagged(y) && x.user.rowIndex == y.user.rowIndex
                   ==> Fingerprint(x) == Fingerprint(y)
  }

  /** The brief under `key` describes one of `lines`. */
  ghost predicate Describes(b: LineBrief, lines: seq<AnalyzedLine>, key: string) {
    b.text != "" && exists line :: line in lines && KeyOf(line) == key && Fingerprint(line) == b.fingerprint
  }

  /** The same, of a flagged line. */
  ghost predicate DescribesFlagged(b: LineBrief, lines: seq<AnalyzedLine>, key: string) {
    b.text != "" && exists line :: line in lines && IsFlagged(line) && KeyOf(line) == key && Fingerprint(line) == b.fingerprint
  }

  lemma RowLast(lines: seq<AnalyzedLine>, key: string)
    requires lines != []
    ensures HasRow(lines, key) <==> HasRow(lines[..|lines| - 1], key) || KeyOf(lines[|lines| - 1]) == key
    ensures forall b :: Describes(b, lines[..|lines| - 1], key) ==> Describes(b, lines, key)
  {
    var front, last := lines[..|lines| - 1], lines[|lines| - 1];
    assert forall line :: line in lines <==> line in front || line == last;
    forall b | Describes(b, front, key) ensures Describes(b, lines, key) {
      var line :| line in front && KeyOf(line) == key && Fingerprint(line) == b.fingerprint;
      assert line in lines;
    }
  }

  lemma NonBlankIsNonEmpty(text: string)
    requires !Text.IsBlank(text)
    ensures text != ""
  {}

  lemma {:induction false} AnsweredDescribes(next: LineBriefs, asked: seq<AnalyzedLine>, answers: seq<Option<string>>,
                                             existing: LineBriefs, now: int, key: string)
    requires |asked| == |answers| && AllAnswered(answers)
    ensures var r := Answered(next, asked, answers, existing, now);
            && (key in r <==> key in next || HasRow(asked, key))
            && (key in r ==> (key in next && r[key] == next[key]) || Describes(r[key], asked, key))
    decreases |asked|
  {
    if asked != [] {
      var last := |asked| - 1;
      AnsweredDescribes(next, asked[..last], answers[..last], existing, now, key);
      RowLast(asked, key);
      NonBlankIsNonEmpty(answers[last].value);
      if KeyOf(asked[last]) == key {
        assert asked[last] in asked;
        assert Describes(LineBrief(Fingerprint(asked[last]), answers[last].value, now), asked, key);
      }
    }
  }

  lemma FlaggedRowIsKeptOrAsked(lines: seq<AnalyzedLine>, existing: LineBriefs, key: string)
    ensures IsFlaggedRow(lines, key) <==> IsCurrentRow(lines, existing, key) || HasRow(ToAnalyze(lines, existing), key)
  {
    if line :| line in lines && IsFlagged(line) && KeyOf(line) == key {
      ToAnalyzeMembers(lines, existing, line);
      if IsCurrent(line, existing) {
        assert HasCurrentBrief(line, existing, key);
      }
    }
    AskedRow(lines, existing, key);
  }

  lemma KeptDescribes(lines: seq<AnalyzedLine>, existing: LineBriefs, key: string)
    requires key in Kept(lines, existing)
    ensures DescribesFlagged(Kept(lines, existing)[key], lines, key)
  {
    KeptAt(lines, existing, key);
    var line :| line in lines && HasCurrentBrief(line, existing, key);
    assert Fingerprint(line) == existing[key].fingerprint;
  }

  lemma AskedDescribes(b: LineBrief, lines: seq<AnalyzedLine>, existing: LineBriefs, key: string)
    requires Describes(b, ToAnalyze(lines, existing), key)
    ensures DescribesFlagged(b, lines, key)
  {
    var line :| line in ToAnalyze(lines, existing) && KeyOf(line) == key && Fingerprint(line) == b.fingerprint;
    ToAnalyzeMembers(lines, existing, line);
  }

  /** After a fully answered pass each flagged line has a brief, and each brief describes a
      flagged line of its row. */
  lemma AppliedDescribes(lines: seq<AnalyzedLine>, existing: LineBriefs, answers: seq<Option<string>>, now: int,
                         key: string)
    requires |answers| == |ToAnalyze(lines, existing)| && AllAnswered(answers)
    ensures var r := Applied(lines, existing, answers, now);
            && (key in r <==> IsFlaggedRow(lines, key))
            && (key in r ==> DescribesFlagged(r[key], lines, key))
  {
    var asked, kept := ToAnalyze(lines, existing), Kept(lines, existing);
    var r := Answered(kept, asked, answers, existing, now);
    KeptAt(lines, existing, key);
    AnsweredDescribes(kept, asked, answers, existing, now, key);
    FlaggedRowIsKeptOrAsked(lines, existing, key);
    if key in r {
      if key in kept && r[key] == kept[key] {
        KeptDescribes(lines, existing, key);
      } else {
        AskedDescribes(r[key], lines, existing, key);
      }
    }
  }

  lemma SettledWhenRowsAgree(lines: seq<AnalyzedLine>, r: LineBriefs, line: AnalyzedLine)
    requires RowsAgree(lines) && line in lines && IsFlagged(line)
    requires KeyOf(line) in r && DescribesFlagged(r[KeyOf(line)], lines, KeyOf(line))
    ensures IsCurrent(line, r)
  {
    var other :| other in lines && IsFlagged(other) && KeyOf(other) == KeyOf(line)
                 && Fingerprint(other) == r[KeyOf(line)].fingerprint;
    Decimal.FromNatInjective(line.user.rowIndex, other.user.rowIndex);
  }

  lemma CurrentRowsAgree(lines: seq<AnalyzedLine>, r: LineBriefs)
    requires forall line :: line in lines && IsFlagged(line) ==> IsCurrent(line, r)
    ensures RowsAgree(lines)
  {}

  /** A fully answered pass leaves nothing to refresh exactly when flagged lines sharing a
      row agree. */
  lemma SettledIffRowsAgree(lines: seq<AnalyzedLine>, existing: LineBriefs, answers: seq<Option<string>>, now: int)
    requires |answers| == |ToAnalyze(lines, existing)| && AllAnswered(answers)
    ensures !NeedsBriefRefresh(lines, Applied(lines, existing, answers, now)) <==> RowsAgree(lines)
  {
    var r := Applied(lines, existing, answers, now);
    if RowsAgree(lines) {
      forall i | 0 <= i < |lines| && IsFlagged(lines[i]) ensures IsCurrent(lines[i], r) {
        AppliedDescribes(lines, existing, answers, now, KeyOf(lines[i]));
        assert lines[i] in lines && IsFlaggedRow(lines, KeyOf(lines[i]));
        SettledWhenRowsAgree(lines, r, lines[i]);
      }
    }
    if !NeedsBriefRefresh(lines, r) {
      CurrentRowsAgree(lines, r);
    }
  }

  lemma NothingToAnalyze(lines: seq<AnalyzedLine>, briefs: LineBriefs)
    ensures ToAnalyze(lines, briefs) == [] <==> !NeedsBriefRefresh(lines, briefs)
  {
    var asked := ToAnalyze(lines, briefs);
    if asked != [] {
      ToAnalyzeMembers(lines, briefs, asked[0]);
    }
    if i :| 0 <= i < |lines| && IsFlagged(lines[i]) && !IsCurrent(lines[i], briefs) {
      ToAnalyzeMembers(lines, briefs, lines[i]);
    }
  }

  /** The fixed point: on lines whose rows agree, a pass after a fully answered pass calls the
      model for nothing and has nothing to write. */
  lemma SecondPassIsIdle(lines: seq<AnalyzedLine>, existing: LineBriefs, answers: seq<Option<string>>,
                         now: int, later: int)
    requires |answers| == |ToAnalyze(lines, existing)| && AllAnswered(answers) && RowsAgree(lines)
    ensures var r := Applied(lines, existing, answers, now);
            ToAnalyze(lines, r) == [] && Applied(lines, r, [], later) == r
  {
    var r := Applied(lines, existing, answers, now);
    SettledIffRowsAgree(lines, existing, answers, now);
    NothingToAnalyze(lines, r);
    var kept := Kept(lines, r);
    forall key ensures (key in r <==> key in kept) && (key in kept ==> key in r && kept[key] == r[key]) {
      AppliedDescribes(lines, existing, answers, now, key);
      KeptAt(lines, r, key);
      if key in r {
        var line :| line in lines && IsFlagged(line) && KeyOf(line) == key;
        assert HasCurrentBrief(line, r, key);
      }
    }
    assert kept == r;
  }

  /** Distinct rows, which patching, adding and deleting lines preserve, are enough. */
  lemma DistinctRowsAgree(lines: seq<AnalyzedLine>)
    requires forall i, j :: 0 <= i < j < |lines| ==> lines[i].user.rowIndex != lines[j].user.rowIndex
    ensures RowsAgree(lines)
  {}

  /** With a shared row they need not: two red lines of row 0 with different parts are
      refreshed for ever. */
  lemma SharedRowNeverSettles(existing: LineBriefs, answers: seq<Option<string>>, now: int)
    requires var lines := [RedLine("A"), RedLine("B")];
             |answers| == |ToAnalyze(lines, existing)| && AllAnswered(answers)
    ensures NeedsBriefRefresh([RedLine("A"), RedLine("B")], Applied([RedLine("A"), RedLine("B")], existing, answers, now))
  {
    var lines := [RedLine("A"), RedLine("B")];
    assert Fingerprint(lines[0])[0] != Fingerprint(lines[1])[0];
    SettledIffRowsAgree(lines, existing, answers, now);
  }

  function RedLine(mpn: string): AnalyzedLine {
    AnalyzedLine(LineUser(0, Some(mpn), None, None, None, None), [], "InStock", "Eol", "Exact", None, 0, Red,
                 None, None, None, NO_TARIFF, None)
  }
}
