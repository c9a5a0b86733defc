/** Current-row part snapshots as stored items (`store_item.rs`). */
module SnapshotCodec {
  import opened Prelude
  import Decimal

  const I64_MIN: int := -0x8000_0000_0000_0000
  const I64_MAX: int := 0x7FFF_FFFF_FFFF_FFFF

  type Int64 = x: int | -0x8000_0000_0000_0000 <= x <= 0x7FFF_FFFF_FFFF_FFFF
  type Int32 = x: int | -0x8000_0000 <= x <= 0x7FFF_FFFF

  datatype MatchStatus = Exact | Fuzzy | NoneMatched | PendingMatch

  datatype Availability = InStock | OutOfStock | NoMatch | Failed | PendingLookup

  datatype Lifecycle = Active | Eol | Nrnd | Discontinued | Unknown

  datatype PartResult = PartResult(
    providerPartId: Option<string>,
    matchedMpn: Option<string>,
    matchedManufacturer: Option<string>,
    matchStatus: MatchStatus,
    availability: Availability,
    lifecycle: Lifecycle,
    totalAvail: Int64,
    factoryLeadDays: Option<Int32>,
    htsCode: Option<string>,
    countryOfOrigin: Option<string>,
    category: Option<string>,
    fetchedAt: string
  )

  /** A stored attribute: text, or a number as decimal text. */
  datatype Attribute = S(text: string) | N(digits: string)

  /** The attribute names. */
  datatype Name =
    | Pk | Sk | FetchedAt | MatchStatusName | AvailabilityName | LifecycleName | TotalAvail
    | ProviderPartId | MatchedMpn | MatchedManufacturer | HtsCode | CountryOfOrigin | Category
    | FactoryLeadDays

  type Item = map<Name, Attribute>

  // ----- status names -----

  function MatchText(m: MatchStatus): string {
    match m
    case Exact => "Exact"
    case Fuzzy => "Fuzzy"
    case NoneMatched => "None"
    case PendingMatch => "Pending"
  }

  function AvailabilityText(a: Availability): string {
    match a
    case InStock => "InStock"
    case OutOfStock => "OutOfStock"
    case NoMatch => "NoMatch"
    case Failed => "Error"
    case PendingLookup => "Pending"
  }

  function LifecycleText(l: Lifecycle): string {
    match l
    case Active => "Active"
    case Eol => "Eol"
    case Nrnd => "Nrnd"
    case Discontinued => "Discontinued"
    case Unknown => "Unknown"
  }

  function ParseMatch(raw: string): MatchStatus {
    if raw == "Exact" then Exact
    else if raw == "Fuzzy" then Fuzzy
    else if raw == "Pending" then PendingMatch
    else NoneMatched
  }

  function ParseAvailability(raw: string): Availability {
    if raw == "InStock" then InStock
    else if raw == "OutOfStock" then OutOfStock
    else if raw == "Error" then Failed
    else if raw == "Pending" then PendingLookup
    else NoMatch
  }

  function ParseLifecycle(raw: string): Lifecycle {
    if raw == "Active" then Active
    else if raw == "Eol" then Eol
    else if raw == "Nrnd" then Nrnd
    else if raw == "Discontinued" then Discontinued
    else Unknown
  }

  lemma StatusNamesRoundTrip(m: MatchStatus, a: Availability, l: Lifecycle)
    ensures ParseMatch(MatchText(m)) == m
    ensures ParseAvailability(AvailabilityText(a)) == a
    ensures ParseLifecycle(LifecycleText(l)) == l
  {}

  // ----- encoding -----

  function WithText(item: Item, name: Name, value: Option<string>): Item {
    if value.Some? && value.value != "" then item[name := S(value.value)] else item
  }

  function WithStatus(pk: string, r: PartResult): Item {
    map[
      Pk := S(pk), Sk := S("CURRENT"), FetchedAt := S(r.fetchedAt),
      MatchStatusName := S(MatchText(r.matchStatus)),
      AvailabilityName := S(AvailabilityText(r.availability)),
      LifecycleName := S(LifecycleText(r.lifecycle)),
      TotalAvail := N(Decimal.FromInt(r.totalAvail))]
  }

  function WithPart(item: Item, r: PartResult): Item {
    WithText(WithText(WithText(item, ProviderPartId, r.providerPartId),
                      MatchedMpn, r.matchedMpn), MatchedManufacturer, r.matchedManufacturer)
  }

  function WithOrigin(item: Item, r: PartResult): Item {
    WithText(WithText(WithText(item, HtsCode, r.htsCode),
                      CountryOfOrigin, r.countryOfOrigin), Category, r.category)
  }

  function WithLeadDays(item: Item, r: PartResult): Item {
    if r.factoryLeadDays.Some? then item[FactoryLeadDays := N(Decimal.FromInt(r.factoryLeadDays.value))] else item
  }

  function Encode(pk: string, r: PartResult): Item {
    WithLeadDays(WithOrigin(WithPart(WithStatus(pk, r), r), r), r)
  }

  /** Builds the item attribute by attribute. */
  method ResultToItem(pk: string, r: PartResult) returns (item: Item)
    ensures item == Encode(pk, r)
  {
    item := map[Pk := S(pk), Sk := S("CURRENT"), FetchedAt := S(r.fetchedAt)];
    item := item[MatchStatusName := S(MatchText(r.matchStatus))];
    item := item[AvailabilityName := S(AvailabilityText(r.availability))];
    item := item[LifecycleName := S(LifecycleText(r.lifecycle))];
    item := item[TotalAvail := N(Decimal.FromInt(r.totalAvail))];
    item := PutOptional(item, ProviderPartId, r.providerPartId);
    item := PutOptional(item, MatchedMpn, r.matchedMpn);
    item := PutOptional(item, MatchedManufacturer, r.matchedManufacturer);
    item := PutOptional(item, HtsCode, r.htsCode);
    item := PutOptional(item, CountryOfOrigin, r.countryOfOrigin);
    item := PutOptional(item, Category, r.category);
    if r.factoryLeadDays.Some? {
      item := item[FactoryLeadDays := N(Decimal.FromInt(r.factoryLeadDays.value))];
    }
  }

  method PutOptional(item: Item, name: Name, value: Option<string>) returns (r: Item)
    ensures r == WithText(item, name, value)
  {
    r := item;
    if value.Some? && value.value != "" {
      r := r[name := S(value.value)];
    }
  }

  // ----- decoding -----

  function TextAt(item: Item, name: Name): Option<string> {
    if name in item && item[name].S? then Some(item[name].text) else None
  }

  function NumberAt(item: Item, name: Name): Option<int> {
    if name in item && item[name].N? then Decimal.ParseInt(item[name].digits, I64_MIN, I64_MAX) else None
  }

  /** `as i32`: the low 32 bits, read as a signed number. */
  function Truncate32(n: int): Int32 {
    var low := n % 0x1_0000_0000;
    if low <= 0x7FFF_FFFF then low else low - 0x1_0000_0000
  }

  function TotalAvailOf(item: Item): Int64 {
    var n := NumberAt(item, TotalAvail).GetOr(0);
    if I64_MIN <= n <= I64_MAX then n else 0
  }

  function LeadDaysOf(item: Item): Option<Int32> {
    match NumberAt(item, FactoryLeadDays)
    case Some(n) => Some(Truncate32(n))
    case None => None
  }

  /** An item without a fetch time is no snapshot. */
  function Decode(item: Item): Option<PartResult> {
    var fetchedAt := TextAt(item, FetchedAt).GetOr("");
    if fetchedAt == "" then None
    else
      Some(PartResult(
             TextAt(item, ProviderPartId), TextAt(item, MatchedMpn), TextAt(item, MatchedManufacturer),
             ParseMatch(TextAt(item, MatchStatusName).GetOr("")),
             ParseAvailability(TextAt(item, AvailabilityName).GetOr("")),
             ParseLifecycle(TextAt(item, LifecycleName).GetOr("")),
             TotalAvailOf(item), LeadDaysOf(item),
             TextAt(item, HtsCode), TextAt(item, CountryOfOrigin), TextAt(item, Category),
             fetchedAt))
  }

  // ----- the round trip -----

  function NonEmpty(v: Option<string>): Option<string> { if v == Some("") then None else v }

  /** The result as storage keeps it: empty optional texts are absent. */
  function Stored(r: PartResult): PartResult {
    r.(providerPartId := NonEmpty(r.providerPartId), matchedMpn := NonEmpty(r.matchedMpn),
       matchedManufacturer := NonEmpty(r.matchedManufacturer), htsCode := NonEmpty(r.htsCode),
       countryOfOrigin := NonEmpty(r.countryOfOrigin), category := NonEmpty(r.category))
  }

  predicate HasEmptyText(r: PartResult) {
    || r.providerPartId == Some("") || r.matchedMpn == Some("") || r.matchedManufacturer == Some("")
    || r.htsCode == Some("") || r.countryOfOrigin == Some("") || r.category == Some("")
  }

  function At(item: Item, n: Name): Option<Attribute> { if n in item then Some(item[n]) else None }

  function TextOr(value: Option<string>, rest: Option<Attribute>): Option<Attribute> {
    if NonEmpty(value).Some? then Some(S(value.value)) else rest
  }

  function StatusAt(pk: string, r: PartResult, n: Name): Option<Attribute> {
    match n
    case Pk => Some(S(pk))
    case Sk => Some(S("CURRENT"))
    case FetchedAt => Some(S(r.fetchedAt))
    case MatchStatusName => Some(S(MatchText(r.matchStatus)))
    case AvailabilityName => Some(S(AvailabilityText(r.availability)))
    case LifecycleName => Some(S(LifecycleText(r.lifecycle)))
    case TotalAvail => Some(N(Decimal.FromInt(r.totalAvail)))
    case _ => None
  }

  function PartOver(r: PartResult, n: Name, rest: Option<Attribute>): Option<Attribute> {
    match n
    case ProviderPartId => TextOr(r.providerPartId, rest)
    case MatchedMpn => TextOr(r.matchedMpn, rest)
    case MatchedManufacturer => TextOr(r.matchedManufacturer, rest)
    case _ => rest
  }

  function OriginOver(r: PartResult, n: Name, rest: Option<Attribute>): Option<Attribute> {
    match n
    case HtsCode => TextOr(r.htsCode, rest)
    case CountryOfOrigin => TextOr(r.countryOfOrigin, rest)
    case Category => TextOr(r.category, rest)
    case _ => rest
  }

  function LeadDaysOver(r: PartResult, n: Name, rest: Option<Attribute>): Option<Attribute> {
    if n.FactoryLeadDays? && r.factoryLeadDays.Some? then Some(N(Decimal.FromInt(r.factoryLeadDays.value))) else rest
  }

  /** Attribute `n` of an encoded snapshot. */
  function Encoded(pk: string, r: PartResult, n: Name): Option<Attribute> {
    LeadDaysOver(r, n, OriginOver(r, n, PartOver(r, n, StatusAt(pk, r, n))))
  }

  lemma WithStatusAt(pk: string, r: PartResult, n: Name)
    ensures At(WithStatus(pk, r), n) == StatusAt(pk, r, n)
  {}

  lemma WithPartAt(item: Item, r: PartResult, n: Name)
    ensures At(WithPart(item, r), n) == PartOver(r, n, At(item, n))
  {}

  lemma WithOriginAt(item: Item, r: PartResult, n: Name)
    ensures At(WithOrigin(item, r), n) == OriginOver(r, n, At(item, n))
  {}

  lemma WithLeadDaysAt(item: Item, r: PartResult, n: Name)
    ensures At(WithLeadDays(item, r), n) == LeadDaysOver(r, n, At(item, n))
  {}

  lemma EncodeAt(pk: string, r: PartResult, n: Name)
    ensures At(Encode(pk, r), n) == Encoded(pk, r, n)
  {
    WithStatusAt(pk, r, n);
    WithPartAt(WithStatus(pk, r), r, n);
    WithOriginAt(WithPart(WithStatus(pk, r), r), r, n);
    WithLeadDaysAt(WithOrigin(WithPart(WithStatus(pk, r), r), r), r, n);
  }

  /** The part of the result that each group of attributes carries. */
  lemma NumbersSurvive(item: Item, r: PartResult)
    requires At(item, TotalAvail) == Some(N(Decimal.FromInt(r.totalAvail)))
    requires At(item, FactoryLeadDays)
             == if r.factoryLeadDays.Some? then Some(N(Decimal.FromInt(r.factoryLeadDays.value))) else None
    ensures TotalAvailOf(item) == r.totalAvail
    ensures LeadDaysOf(item) == r.factoryLeadDays
  {
    Decimal.ParseOfInt(r.totalAvail, I64_MIN, I64_MAX);
    if r.factoryLeadDays.Some? {
      Decimal.ParseOfInt(r.factoryLeadDays.value, I64_MIN, I64_MAX);
      TruncateFits(r.factoryLeadDays.value);
    }
  }

  lemma TruncateFits(n: Int32)
    ensures Truncate32(n) == n
  {
    if n < 0 {
      assert n % 0x1_0000_0000 == n + 0x1_0000_0000;
    }
  }

  ghost predicate Encodes(item: Item, pk: string, r: PartResult) {
    forall n :: At(item, n) == Encoded(pk, r, n)
  }

  lemma StatusesSurvive(pk: string, r: PartResult, item: Item)
    requires Encodes(item, pk, r)
    ensures TextAt(item, FetchedAt) == Some(r.fetchedAt)
    ensures TextAt(item, MatchStatusName) == Some(MatchText(r.matchStatus))
    ensures TextAt(item, AvailabilityName) == Some(AvailabilityText(r.availability))
    ensures TextAt(item, LifecycleName) == Some(LifecycleText(r.lifecycle))
  {
    assert At(item, FetchedAt) == Encoded(pk, r, FetchedAt);
    assert At(item, MatchStatusName) == Encoded(pk, r, MatchStatusName);
    assert At(item, AvailabilityName) == Encoded(pk, r, AvailabilityName);
    assert At(item, LifecycleName) == Encoded(pk, r, LifecycleName);
  }

  lemma PartSurvives(pk: string, r: PartResult, item: Item)
    requires Encodes(item, pk, r)
    ensures TextAt(item, ProviderPartId) == NonEmpty(r.providerPartId)
    ensures TextAt(item, MatchedMpn) == NonEmpty(r.matchedMpn)
    ensures TextAt(item, MatchedManufacturer) == NonEmpty(r.matchedManufacturer)
  {
    assert At(item, ProviderPartId) == Encoded(pk, r, ProviderPartId);
    assert At(item, MatchedMpn) == Encoded(pk, r, MatchedMpn);
    assert At(item, MatchedManufacturer) == Encoded(pk, r, MatchedManufacturer);
  }

  lemma OriginSurvives(pk: string, r: PartResult, item: Item)
    requires Encodes(item, pk, r)
    ensures TextAt(item, HtsCode) == NonEmpty(r.htsCode)
    ensures TextAt(item, CountryOfOrigin) == NonEmpty(r.countryOfOrigin)
    ensures TextAt(item, Category) == NonEmpty(r.category)
  {
    assert At(item, HtsCode) == Encoded(pk, r, HtsCode);
    assert At(item, CountryOfOrigin) == Encoded(pk, r, CountryOfOrigin);
    assert At(item, Category) == Encoded(pk, r, Category);
  }

  lemma NumbersAreEncoded(pk: string, r: PartResult, item: Item)
    requires Encodes(item, pk, r)
    ensures At(item, TotalAvail) == Some(N(Decimal.FromInt(r.totalAvail)))
    ensures At(item, FactoryLeadDays)
            == if r.factoryLeadDays.Some? then Some(N(Decimal.FromInt(r.factoryLeadDays.value))) else None
  {
    assert At(item, TotalAvail) == Encoded(pk, r, TotalAvail);
    assert At(item, FactoryLeadDays) == Encoded(pk, r, FactoryLeadDays);
  }

  /** Decoding an encoded snapshot, for every result. */
  lemma DecodeEncode(pk: string, r: PartResult)
    ensures Decode(Encode(pk, r)) == if r.fetchedAt == "" then None else Some(Stored(r))
  {
    var item := Encode(pk, r);
    forall n ensures At(item, n) == Encoded(pk, r, n) {
      EncodeAt(pk, r, n);
    }
    NumbersAreEncoded(pk, r, item);
    NumbersSurvive(item, r);
    StatusNamesRoundTrip(r.matchStatus, r.availability, r.lifecycle);
    StatusesSurvive(pk, r, item);
    PartSurvives(pk, r, item);
    OriginSurvives(pk, r, item);
  }

  /** It gives the result back exactly when there is a fetch time and no empty optional. */
  lemma RoundTripIff(pk: string, r: PartResult)
    ensures Decode(Encode(pk, r)) == Some(r) <==> r.fetchedAt != "" && !HasEmptyText(r)
  {
    DecodeEncode(pk, r);
  }
}
