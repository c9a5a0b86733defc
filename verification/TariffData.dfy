/** The tariff datasets and their indexes (`data.rs`). Codes and names are wrapped so that
    they compare as wholes. */
module TariffData {
  import opened Prelude
  import Sorting
  import Screening

  datatype HtsBaseEntry = HtsBaseEntry(code: string, generalRate: real)

  datatype Addon = Addon(code: string, program: string, rate: real, subheading: string)

  datatype Entity = Entity(id: string, name: string, altNames: seq<string>)

  datatype DataError = Empty(dataset: string)

  /** A normalized code or name, as an index key. */
  datatype IndexKey = IndexKey(text: string)

  datatype Data = Data(
    htsBase: seq<HtsBaseEntry>,
    addons: seq<Addon>,
    entities: seq<Entity>,
    htsByCode: map<IndexKey, HtsBaseEntry>,
    entityByName: map<IndexKey, Entity>
  )

  /** The digits of a code. */
  function Digits(code: string): string {
    Filter(code, (c: char) => '0' <= c <= '9')
  }

  function CodeKey(e: HtsBaseEntry): IndexKey { IndexKey(Digits(e.code)) }

  // ----- the code index -----

  /** The last entry with a key. */
  function LastWithKey(entries: seq<HtsBaseEntry>, key: IndexKey): Option<HtsBaseEntry> {
    if entries == [] then None
    else if CodeKey(entries[|entries| - 1]) == key then Some(entries[|entries| - 1])
    else LastWithKey(entries[..|entries| - 1], key)
  }

  ghost predicate IsLast(entries: seq<HtsBaseEntry>, key: IndexKey, i: int) {
    && 0 <= i < |entries| && CodeKey(entries[i]) == key
    && forall j :: i < j < |entries| ==> CodeKey(entries[j]) != key
  }

  /** An entry with the key at `i`, and none after it, is what the search finds. */
  lemma {:induction false} LastWithKeyIs(entries: seq<HtsBaseEntry>, key: IndexKey, i: int)
    requires IsLast(entries, key, i)
    ensures LastWithKey(entries, key) == Some(entries[i])
    decreases |entries|
  {
    var n := |entries| - 1;
    if i < n {
      assert IsLast(entries[..n], key, i);
      LastWithKeyIs(entries[..n], key, i);
    }
  }

  lemma {:induction false} LastWithKeyNone(entries: seq<HtsBaseEntry>, key: IndexKey)
    ensures LastWithKey(entries, key).None? <==> forall i :: 0 <= i < |entries| ==> CodeKey(entries[i]) != key
    decreases |entries|
  {
    if entries != [] {
      var n := |entries| - 1;
      LastWithKeyNone(entries[..n], key);
      assert forall i :: 0 <= i < n ==> entries[..n][i] == entries[i];
      assert CodeKey(entries[n]) == key ==> LastWithKey(entries, key).Some?;
    }
  }

  ghost predicate IsCodeIndex(entries: seq<HtsBaseEntry>, index: map<IndexKey, HtsBaseEntry>) {
    forall k :: LastWithKey(entries, k) == if k in index then Some(index[k]) else None
  }

  method IndexCodes(entries: seq<HtsBaseEntry>) returns (index: map<IndexKey, HtsBaseEntry>)
    ensures IsCodeIndex(entries, index)
  {
    index := map[];
    for i := 0 to |entries|
      invariant IsCodeIndex(entries[..i], index)
    {
      assert entries[..i + 1][..i] == entries[..i];
      index := index[IndexKey(Digits(entries[i].code)) := entries[i]];
    }
    assert entries[..|entries|] == entries;
  }

  // ----- looking a code up -----

  /** Length `n` of the digits is tried: all of them, or at least four. */
  predicate IsTried(key: string, n: int) { n == |key| || 4 <= n <= |key| }

  /** Some entry has exactly the first `n` digits, and that length is tried. */
  ghost predicate Matches(entries: seq<HtsBaseEntry>, key: string, n: int) {
    IsTried(key, n) && LastWithKey(entries, IndexKey(key[..n])).Some?
  }

  predicate TextMatches(code: string, e: HtsBaseEntry) { e.code <= code || code <= e.code }

  /** The entry a code should get: longest digit prefix, last entry among duplicates; without
      one, the first entry whose text and the code's are prefixes of one another. */
  ghost predicate IsHtsBaseOf(entries: seq<HtsBaseEntry>, code: string, r: Option<HtsBaseEntry>) {
    var key := Digits(code);
    || (exists n :: && Matches(entries, key, n) && (forall m :: Matches(entries, key, m) ==> m <= n)
                    && r == LastWithKey(entries, IndexKey(key[..n])))
    || ((forall n :: !Matches(entries, key, n)) && r == Find(entries, (e: HtsBaseEntry) => TextMatches(code, e)))
  }

  method FindHtsBase(d: Data, code: string) returns (r: Option<HtsBaseEntry>)
    requires IsCodeIndex(d.htsBase, d.htsByCode)
    ensures IsHtsBaseOf(d.htsBase, code, r)
  {
    var key := Digits(code);
    assert key[..|key|] == key;
    if IndexKey(key) in d.htsByCode {
      r := Some(d.htsByCode[IndexKey(key)]);
      assert Matches(d.htsBase, key, |key|);
      return;
    }
    var len := |key|;
    while len >= 4
      invariant len <= |key|
      invariant forall n :: Matches(d.htsBase, key, n) ==> n <= len
      invariant !Matches(d.htsBase, key, |key|)
    {
      if IndexKey(key[..len]) in d.htsByCode {
        r := Some(d.htsByCode[IndexKey(key[..len])]);
        assert Matches(d.htsBase, key, len);
        return;
      }
      len := len - 1;
    }
    r := Find(d.htsBase, (e: HtsBaseEntry) => TextMatches(code, e));
  }

  // ----- addons -----

  /** One code's digits start with the other's. */
  predicate Compatible(code: string, a: Addon) {
    Digits(a.code) <= Digits(code) || Digits(code) <= Digits(a.code)
  }

  predicate LongerFirst(a: Addon, b: Addon) { |a.code| >= |b.code| }

  predicate SameProgramLine(a: Addon, b: Addon) { a.program == b.program && a.subheading == b.subheading }

  /** `dedup_by`: drops an element that matches the last one kept. */
  function Dedup(xs: seq<Addon>): seq<Addon> {
    if xs == [] then []
    else
      var n := |xs| - 1;
      var kept := Dedup(xs[..n]);
      if kept != [] && SameProgramLine(xs[n], kept[|kept| - 1]) then kept else kept + [xs[n]]
  }

  function CompatibleAddons(addons: seq<Addon>, code: string): seq<Addon> {
    Filter(addons, (a: Addon) => Compatible(code, a))
  }

  function Addons(addons: seq<Addon>, code: string): seq<Addon> {
    Dedup(Sorting.StableSort(CompatibleAddons(addons, code), LongerFirst))
  }

  method FindAddons(d: Data, code: string) returns (kept: seq<Addon>)
    ensures kept == Addons(d.addons, code)
  {
    var matches: seq<Addon> := [];
    assert d.addons[..0] == [];
    for i := 0 to |d.addons|
      invariant matches == CompatibleAddons(d.addons[..i], code)
    {
      assert d.addons[..i + 1] == d.addons[..i] + [d.addons[i]];
      FilterConcat(d.addons[..i], [d.addons[i]], (a: Addon) => Compatible(code, a));
      if Compatible(code, d.addons[i]) {
        matches := matches + [d.addons[i]];
      }
    }
    assert d.addons[..|d.addons|] == d.addons;
    var sorted := Sorting.StableSort(matches, LongerFirst);
    kept := [];
    for i := 0 to |sorted|
      invariant kept == Dedup(sorted[..i])
    {
      assert sorted[..i + 1][..i] == sorted[..i];
      if kept == [] || !SameProgramLine(sorted[i], kept[|kept| - 1]) {
        kept := kept + [sorted[i]];
      }
    }
    assert sorted[..|sorted|] == sorted;
  }

  function OfProgram(program: string): Addon -> bool { (a: Addon) => a.program == program }

  /** Dropping duplicates never drops a program's first line. */
  lemma {:induction false} DedupKeepsFirst(xs: seq<Addon>, program: string)
    ensures Find(Dedup(xs), OfProgram(program)) == Find(xs, OfProgram(program))
    ensures Dedup(xs) != [] ==> Dedup(xs)[|Dedup(xs)| - 1] in Dedup(xs)
    decreases |xs|
  {
    if xs != [] {
      var n := |xs| - 1;
      var kept := Dedup(xs[..n]);
      DedupKeepsFirst(xs[..n], program);
      assert xs == xs[..n] + [xs[n]];
      FindConcat(xs[..n], xs[n], OfProgram(program));
      FindConcat(kept, xs[n], OfProgram(program));
      FindWitness(kept, OfProgram(program));
    }
  }

  lemma {:induction false} FindConcat(xs: seq<Addon>, x: Addon, keep: Addon -> bool)
    ensures Find(xs + [x], keep)
            == if Find(xs, keep).Some? then Find(xs, keep) else if keep(x) then Some(x) else None
  {
    if xs == [] {
      assert xs + [x] == [x];
    } else {
      assert (xs + [x])[1..] == xs[1..] + [x];
      FindConcat(xs[1..], x, keep);
    }
  }

  lemma {:induction false} EarliestLeastOfFilter(xs: seq<Addon>, code: string, program: string)
    ensures Sorting.EarliestLeast(CompatibleAddons(xs, code), LongerFirst, OfProgram(program))
            == Sorting.EarliestLeast(xs, LongerFirst, ProgramFor(code, program))
  {
    if xs != [] {
      EarliestLeastOfFilter(xs[1..], code, program);
      var rest := CompatibleAddons(xs[1..], code);
      if Compatible(code, xs[0]) {
        assert ([xs[0]] + rest)[1..] == rest;
        assert CompatibleAddons(xs, code) == [xs[0]] + rest;
      } else {
        assert CompatibleAddons(xs, code) == rest;
      }
    }
  }

  function ProgramFor(code: string, program: string): Addon -> bool {
    (a: Addon) => Compatible(code, a) && a.program == program
  }

  /** Position `i` holds the program's compatible addon with the longest code text, the
      earliest among equals. */
  ghost predicate IsBestAddon(addons: seq<Addon>, code: string, program: string, i: int) {
    && 0 <= i < |addons| && Compatible(code, addons[i]) && addons[i].program == program
    && (forall j :: 0 <= j < |addons| && Compatible(code, addons[j]) && addons[j].program == program ==>
          |addons[j].code| <= |addons[i].code|)
    && (forall j :: 0 <= j < i && Compatible(code, addons[j]) && addons[j].program == program ==>
          |addons[j].code| < |addons[i].code|)
  }

  /** Filter, stable sort, dedup and first match come to a plain scan for the best addon. */
  lemma ProgramLookup(addons: seq<Addon>, code: string, program: string)
    ensures var r := Find(Addons(addons, code), OfProgram(program));
            && (r.None? <==> forall i :: 0 <= i < |addons| ==> !(Compatible(code, addons[i]) && addons[i].program == program))
            && (r.Some? ==> exists i :: IsBestAddon(addons, code, program, i) && addons[i] == r.value)
  {
    var matches := CompatibleAddons(addons, code);
    DedupKeepsFirst(Sorting.StableSort(matches, LongerFirst), program);
    Sorting.SortFirstMatch(matches, LongerFirst, OfProgram(program));
    EarliestLeastOfFilter(addons, code, program);
    Sorting.EarliestLeastIs(addons, LongerFirst, ProgramFor(code, program));
    var r := Find(Addons(addons, code), OfProgram(program));
    if r.Some? {
      var i :| Sorting.IsEarliestLeast(addons, LongerFirst, ProgramFor(code, program), i) && addons[i] == r.value;
      assert IsBestAddon(addons, code, program, i);
    }
    forall i | 0 <= i < |addons|
      ensures ProgramFor(code, program)(addons[i]) <==> Compatible(code, addons[i]) && addons[i].program == program {}
  }

  method FindProgramAddon(d: Data, code: string, program: string) returns (r: Option<Addon>)
    ensures r.None? <==> forall i :: 0 <= i < |d.addons| ==> !(Compatible(code, d.addons[i]) && d.addons[i].program == program)
    ensures r.Some? ==> exists i :: IsBestAddon(d.addons, code, program, i) && d.addons[i] == r.value
  {
    var matches := FindAddons(d, code);
    r := Find(matches, OfProgram(program));
    ProgramLookup(d.addons, code, program);
  }

  method FindSection301Addon(d: Data, code: string) returns (r: Option<Addon>)
    ensures r.None? <==> forall i :: 0 <= i < |d.addons| ==> !(Compatible(code, d.addons[i]) && d.addons[i].program == "section_301")
    ensures r.Some? ==> exists i :: IsBestAddon(d.addons, code, "section_301", i) && d.addons[i] == r.value
  {
    r := FindProgramAddon(d, code, "section_301");
  }

  method FindSection232Addon(d: Data, code: string) returns (r: Option<Addon>)
    ensures r.None? <==> forall i :: 0 <= i < |d.addons| ==> !(Compatible(code, d.addons[i]) && d.addons[i].program == "section_232_semiconductor")
    ensures r.Some? ==> exists i :: IsBestAddon(d.addons, code, "section_232_semiconductor", i) && d.addons[i] == r.value
  {
    r := FindProgramAddon(d, code, "section_232_semiconductor");
  }

  // ----- the entity index -----

  function NameKey(name: string, lower: string -> string): IndexKey { IndexKey(Screening.Normalize(name, lower)) }

  /** The name or an alternate name normalizes to the key. */
  predicate IsNamed(e: Entity, key: IndexKey, lower: string -> string) {
    NameKey(e.name, lower) == key || exists i :: 0 <= i < |e.altNames| && NameKey(e.altNames[i], lower) == key
  }

  /** The first entity of the list with a name that normalizes to the key. */
  function FirstNamed(entities: seq<Entity>, key: IndexKey, lower: string -> string): Option<Entity> {
    Find(entities, (e: Entity) => IsNamed(e, key, lower))
  }

  ghost predicate IsNameIndex(entities: seq<Entity>, index: map<IndexKey, Entity>, lower: string -> string) {
    forall k :: (if k in index then Some(index[k]) else None)
                == if k.text == "" then None else FirstNamed(entities, k, lower)
  }

  /** `index_entity_name`: the first to claim a name keeps it; empty names are skipped. */
  function WithName(index: map<IndexKey, Entity>, key: IndexKey, e: Entity): map<IndexKey, Entity> {
    if key.text == "" || key in index then index else index[key := e]
  }

  method IndexNames(entities: seq<Entity>, lower: string -> string) returns (index: map<IndexKey, Entity>)
    ensures IsNameIndex(entities, index, lower)
  {
    index := map[];
    assert entities[..0] == [];
    for i := 0 to |entities|
      invariant IsNameIndex(entities[..i], index, lower)
    {
      index := IndexOneEntity(index, entities[i], lower, entities[..i]);
      assert entities[..i + 1] == entities[..i] + [entities[i]];
    }
    assert entities[..|entities|] == entities;
  }

  /** The index once the name and the first `n` alternate names of `e` have been added. */
  ghost predicate Extends(index: map<IndexKey, Entity>, e: Entity, n: nat, lower: string -> string, index': map<IndexKey, Entity>)
    requires n <= |e.altNames|
  {
    forall k ::
      (if k in index' then Some(index'[k]) else None)
      == if k in index then Some(index[k])
         else if k.text != "" && IsNamed(e.(altNames := e.altNames[..n]), k, lower) then Some(e)
         else None
  }

  method IndexOneEntity(index: map<IndexKey, Entity>, e: Entity, lower: string -> string, ghost before: seq<Entity>)
    returns (index': map<IndexKey, Entity>)
    requires IsNameIndex(before, index, lower)
    ensures IsNameIndex(before + [e], index', lower)
  {
    index' := WithName(index, NameKey(e.name, lower), e);
    for i := 0 to |e.altNames|
      invariant Extends(index, e, i, lower, index')
    {
      NextAltName(index, e, i, lower, index');
      index' := WithName(index', NameKey(e.altNames[i], lower), e);
    }
    assert e.altNames[..|e.altNames|] == e.altNames;
    EntityAdded(before, e, index, lower, index');
  }

  lemma NextAltName(index: map<IndexKey, Entity>, e: Entity, i: nat, lower: string -> string, index': map<IndexKey, Entity>)
    requires i < |e.altNames| && Extends(index, e, i, lower, index')
    ensures Extends(index, e, i + 1, lower, WithName(index', NameKey(e.altNames[i], lower), e))
  {
    forall k ensures IsNamed(e.(altNames := e.altNames[..i + 1]), k, lower)
                     <==> IsNamed(e.(altNames := e.altNames[..i]), k, lower) || NameKey(e.altNames[i], lower) == k {
      OneMoreName(e, i, k, lower);
    }
  }

  lemma OneMoreName(e: Entity, i: nat, k: IndexKey, lower: string -> string)
    requires i < |e.altNames|
    ensures IsNamed(e.(altNames := e.altNames[..i + 1]), k, lower)
            <==> IsNamed(e.(altNames := e.altNames[..i]), k, lower) || NameKey(e.altNames[i], lower) == k
  {
    var more, fewer := e.altNames[..i + 1], e.altNames[..i];
    assert more[i] == e.altNames[i];
    forall j | 0 <= j < i ensures more[j] == fewer[j] {}
  }

  lemma EntityAdded(before: seq<Entity>, e: Entity, index: map<IndexKey, Entity>, lower: string -> string, index': map<IndexKey, Entity>)
    requires IsNameIndex(before, index, lower)
    requires Extends(index, e, |e.altNames|, lower, index')
    ensures IsNameIndex(before + [e], index', lower)
  {
    assert e.altNames[..|e.altNames|] == e.altNames;
    assert e.(altNames := e.altNames) == e;
    forall k ensures FirstNamed(before + [e], k, lower)
                     == if FirstNamed(before, k, lower).Some? then FirstNamed(before, k, lower)
                        else if IsNamed(e, k, lower) then Some(e) else None {
      FirstNamedConcat(before, e, k, lower);
    }
  }

  lemma {:induction false} FirstNamedConcat(xs: seq<Entity>, x: Entity, k: IndexKey, lower: string -> string)
    ensures FirstNamed(xs + [x], k, lower)
            == if FirstNamed(xs, k, lower).Some? then FirstNamed(xs, k, lower)
               else if IsNamed(x, k, lower) then Some(x) else None
  {
    if xs == [] {
      assert xs + [x] == [x];
    } else {
      assert (xs + [x])[1..] == xs[1..] + [x];
      FirstNamedConcat(xs[1..], x, k, lower);
    }
  }

  method FindEntityListMatch(d: Data, manufacturer: string, lower: string -> string) returns (r: Option<Entity>)
    requires IsNameIndex(d.entities, d.entityByName, lower)
    ensures r == if Screening.Normalize(manufacturer, lower) == "" then None
                 else FirstNamed(d.entities, NameKey(manufacturer, lower), lower)
  {
    var name := Screening.NormalizePartyName(manufacturer, lower);
    if name == "" {
      return None;
    }
    r := if IndexKey(name) in d.entityByName then Some(d.entityByName[IndexKey(name)]) else None;
  }

  // ----- loading -----

  /** Datasets in, indexes built; an empty dataset is an error. */
  method FromParts(hts: seq<HtsBaseEntry>, addons: seq<Addon>, entities: seq<Entity>, lower: string -> string)
    returns (r: Result<Data, DataError>)
    ensures r.Ok? <==> hts != [] && addons != [] && entities != []
    ensures r.Ok? ==>
              && r.value.htsBase == hts && r.value.addons == addons && r.value.entities == entities
              && IsCodeIndex(hts, r.value.htsByCode) && IsNameIndex(entities, r.value.entityByName, lower)
  {
    if hts == [] {
      return Err(Empty("hts_base"));
    }
    if addons == [] {
      return Err(Empty("chapter99_addons"));
    }
    if entities == [] {
      return Err(Empty("entity_list"));
    }
    var codes := IndexCodes(hts);
    var names := IndexNames(entities, lower);
    r := Ok(Data(hts, addons, entities, codes, names));
  }
}
