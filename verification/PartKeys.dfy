/** Part keys (`types.rs`): the partition key of a part, `{MPN}#{MANUFACTURER}`, and the way
    back from a queued key to a query (`drain.rs`). Upper-casing is a parameter that is only
    known to behave as expected on ASCII text. */
module PartKeys {
  import opened Prelude
  import opened Text

  const UNKNOWN: string := "UNKNOWN"

  datatype PartQuery = PartQuery(mpn: string, manufacturer: Option<string>)

  ghost predicate UpperCases(upper: string -> string) {
    forall s :: IsAscii(s) ==> upper(s) == Upper(s)
  }

  function NormalizeMpn(mpn: string, upper: string -> string): string { upper(Trim(mpn)) }

  function NormalizeManufacturer(manufacturer: Option<string>, upper: string -> string): string {
    if manufacturer.Some? && !IsBlank(manufacturer.value) then upper(Trim(manufacturer.value)) else UNKNOWN
  }

  function PartKey(q: PartQuery, upper: string -> string): string {
    NormalizeMpn(q.mpn, upper) + "#" + NormalizeManufacturer(q.manufacturer, upper)
  }

  /** Around the first `#`. */
  function SplitOnce(s: string): Option<(string, string)> {
    if s == [] then None
    else if s[0] == '#' then Some(([], s[1..]))
    else
      match SplitOnce(s[1..])
      case None => None
      case Some(parts) => Some(([s[0]] + parts.0, parts.1))
  }

  function ParsePartKey(pk: string): Option<(string, string)> {
    match SplitOnce(pk)
    case None => None
    case Some(parts) => if parts.0 == [] then None else Some(parts)
  }

  /** The query the retry queue makes of a key. */
  function QueryOf(pk: string): Option<PartQuery> {
    match ParsePartKey(pk)
    case None => None
    case Some(parts) => Some(PartQuery(parts.0, if parts.1 == UNKNOWN then None else Some(parts.1)))
  }

  ghost predicate AsciiQuery(q: PartQuery) {
    IsAscii(q.mpn) && (q.manufacturer.Some? ==> IsAscii(q.manufacturer.value))
  }

  /** Splitting is exact: the part before has no `#`, and the text is put back together. */
  lemma {:induction false} SplitOnceIff(s: string, before: string, after: string)
    ensures SplitOnce(s) == Some((before, after)) <==> '#' !in before && s == before + "#" + after
  {
    if s != [] && s[0] != '#' {
      if before != [] {
        SplitOnceIff(s[1..], before[1..], after);
        assert before == [before[0]] + before[1..];
        assert s == [s[0]] + s[1..];
        if s == before + "#" + after {
          assert s[1..] == before[1..] + "#" + after;
        }
        if SplitOnce(s) == Some((before, after)) {
          assert before[1..] == SplitOnce(s[1..]).value.0;
        }
      }
    } else if s != [] {
      if s == before + "#" + after && '#' !in before {
        assert before == [];
        assert s[1..] == after;
      }
    }
  }

  lemma UpperAscii(s: string)
    ensures IsAscii(s) ==> IsAscii(Upper(s))
    ensures '#' in Upper(s) <==> '#' in s
  {
    if '#' in Upper(s) {
      var i :| 0 <= i < |s| && Upper(s)[i] == '#';
      assert s[i] == '#';
    }
    if '#' in s {
      var i :| 0 <= i < |s| && s[i] == '#';
      assert Upper(s)[i] == '#';
    }
  }

  /** Normalizing what is already normalized changes nothing. */
  lemma NormalFormIsFixed(s: string, upper: string -> string)
    requires UpperCases(upper) && IsAscii(s)
    ensures var n := upper(Trim(s)); upper(Trim(n)) == n && (n == [] <==> IsBlank(s)) && IsAscii(n)
    ensures '#' !in s ==> '#' !in upper(Trim(s))
  {
    TrimAscii(s);
    TrimIsTrimmed(s);
    UpperTrimmed(Trim(s));
    UpperIdempotent(Trim(s));
    UpperAscii(Trim(s));
    TrimStartShape(s);
    TrimEndShape(TrimStart(s));
  }

  /** From a part's key the queue gets back a query with the same key. */
  lemma KeyRoundTrip(q: PartQuery, upper: string -> string)
    requires UpperCases(upper) && AsciiQuery(q)
    requires '#' !in q.mpn && !IsBlank(q.mpn)
    ensures var again := QueryOf(PartKey(q, upper));
            again.Some? && PartKey(again.value, upper) == PartKey(q, upper)
  {
    var m, f := NormalizeMpn(q.mpn, upper), NormalizeManufacturer(q.manufacturer, upper);
    NormalFormIsFixed(q.mpn, upper);
    SplitOnceIff(PartKey(q, upper), m, f);
    if f != UNKNOWN {
      NormalFormIsFixed(q.manufacturer.value, upper);
    }
  }

  /** Both halves of a key in normal form. */
  ghost predicate NormalKey(pk: string, m: string, f: string) {
    SplitOnce(pk) == Some((m, f)) && m != [] && f != [] && m == Upper(Trim(m)) && f == Upper(Trim(f))
  }

  lemma SplitAscii(pk: string, m: string, f: string)
    requires IsAscii(pk) && SplitOnce(pk) == Some((m, f))
    ensures IsAscii(m) && IsAscii(f) && '#' !in m && pk == m + "#" + f
  {
    SplitOnceIff(pk, m, f);
    assert forall i :: 0 <= i < |m| ==> m[i] == pk[i];
    assert forall i :: 0 <= i < |f| ==> f[i] == pk[|m| + 1 + i];
  }

  lemma NormalizeOfSome(f: string, upper: string -> string)
    requires UpperCases(upper) && IsAscii(f) && f != UNKNOWN
    ensures NormalizeManufacturer(Some(f), upper) == f <==> f != [] && f == Upper(Trim(f))
  {
    NormalFormIsFixed(f, upper);
    TrimAscii(f);
  }

  lemma UnknownIsNormal()
    ensures Upper(Trim(UNKNOWN)) == UNKNOWN
  {
    assert Trim(UNKNOWN) == UNKNOWN;
  }

  /** A text comes back unchanged by way of its query exactly when it splits at its first `#`
      into two non-empty parts in normal form. */
  lemma RebuildIff(pk: string, upper: string -> string)
    requires UpperCases(upper) && IsAscii(pk)
    ensures (QueryOf(pk).Some? && PartKey(QueryOf(pk).value, upper) == pk) <==> exists m, f :: NormalKey(pk, m, f)
  {
    var parts := ParsePartKey(pk);
    if parts.Some? {
      var m, f := parts.value.0, parts.value.1;
      SplitAscii(pk, m, f);
      TrimAscii(m);
      NormalFormIsFixed(m, upper);
      UnknownIsNormal();
      if f != UNKNOWN {
        NormalizeOfSome(f, upper);
      }
      var q := QueryOf(pk).value;
      SplitOnceIff(PartKey(q, upper), NormalizeMpn(m, upper), NormalizeManufacturer(q.manufacturer, upper));
      assert NormalKey(pk, m, f) <==> PartKey(q, upper) == pk;
    }
  }

  function Hashes(s: string): nat { CountIf(s, (c: char) => c == '#') }

  lemma {:induction false} NoHashes(s: string)
    ensures Hashes(s) == 0 <==> '#' !in s
  {
    if s != [] {
      NoHashes(s[1..]);
      assert s == [s[0]] + s[1..];
    }
  }

  /** Two different ways to write one text as two parts around a `#` differ in how many more
      of them the first part has. */
  lemma SplitsDiffer(m: string, f: string, n: string, g: string)
    requires m + "#" + f == n + "#" + g && |m| < |n|
    ensures Hashes(m) < Hashes(n)
  {
    var whole := m + "#" + f;
    var between := n[|m| + 1..];
    assert m == whole[..|m|] && n == whole[..|n|] && whole[|m|] == '#';
    assert n == m + (['#'] + between);
    CountIfConcat(m, ['#'] + between, (c: char) => c == '#');
    CountIfConcat(['#'], between, (c: char) => c == '#');
  }

  /** Parts that share a key have the same normalized names exactly when their normalized MPNs
      have equally many `#`; without any, sharing a key and having the same names are one. */
  lemma SameKeyIff(p: PartQuery, q: PartQuery, upper: string -> string)
    ensures var m, f := NormalizeMpn(p.mpn, upper), NormalizeManufacturer(p.manufacturer, upper);
            var n, g := NormalizeMpn(q.mpn, upper), NormalizeManufacturer(q.manufacturer, upper);
            && (PartKey(p, upper) == PartKey(q, upper) && Hashes(m) == Hashes(n) <==> m == n && f == g)
            && ('#' !in m && '#' !in n ==> (PartKey(p, upper) == PartKey(q, upper) <==> m == n && f == g))
  {
    var m, f := NormalizeMpn(p.mpn, upper), NormalizeManufacturer(p.manufacturer, upper);
    var n, g := NormalizeMpn(q.mpn, upper), NormalizeManufacturer(q.manufacturer, upper);
    NoHashes(m);
    NoHashes(n);
    if m + "#" + f == n + "#" + g {
      if |m| < |n| {
        SplitsDiffer(m, f, n, g);
      } else if |n| < |m| {
        SplitsDiffer(n, g, m, f);
      } else {
        SameSplit(m, f, n, g);
      }
    }
  }

  lemma SameSplit(m: string, f: string, n: string, g: string)
    requires m + "#" + f == n + "#" + g && |m| == |n|
    ensures m == n && f == g
  {
    var whole := m + "#" + f;
    assert m == whole[..|m|] && n == whole[..|n|];
    assert f == whole[|m| + 1..] && g == whole[|n| + 1..];
  }

  /** A `#` in the MPN makes two different parts share a key. */
  lemma HashMakesKeysCollide(upper: string -> string)
    requires UpperCases(upper)
    ensures PartKey(PartQuery("A#B", None), upper) == PartKey(PartQuery("A", Some("B#UNKNOWN")), upper)
    ensures NormalizeMpn("A#B", upper) != NormalizeMpn("A", upper)
  {
    TrimOfTrimmed("A#B");
    TrimOfTrimmed("A");
    TrimOfTrimmed("B#UNKNOWN");
    assert Upper("A#B") == "A#B" && Upper("A") == "A" && Upper("B#UNKNOWN") == "B#UNKNOWN";
    assert !IsBlank("B#UNKNOWN");
    assert "A#B" + "#" + UNKNOWN == "A" + "#" + "B#UNKNOWN";
  }
}
