/** Paging a list by the id of the last item returned (`pagination.rs`), and the pages of the
    BOM list. */
module Pagination {
  import opened Prelude
  import opened BomStore
  import BomContent
  import BomGuarantees
  import BomProtocol

  const DEFAULT_LIMIT: nat := 50
  const MAX_LIMIT: nat := 100

  datatype PageParams = PageParams(limit: nat, nextToken: Option<string>)

  datatype Page<T> = Page(items: seq<T>, nextToken: Option<string>)

  datatype PageError = InvalidToken | AmbiguousToken

  /** Every query ends up with a limit from 1 to 100 and no empty token. */
  function FromQuery(limit: Option<nat>, nextToken: Option<string>): (p: PageParams)
    ensures 1 <= p.limit <= MAX_LIMIT && p.nextToken != Some("")
    ensures limit.Some? && 1 <= limit.value <= MAX_LIMIT ==> p.limit == limit.value
    ensures limit.Some? && limit.value > MAX_LIMIT ==> p.limit == MAX_LIMIT
    ensures limit.None? || limit.value == 0 ==> p.limit == DEFAULT_LIMIT
    ensures nextToken != Some("") ==> p.nextToken == nextToken
  {
    var l := limit.GetOr(DEFAULT_LIMIT);
    PageParams(if l == 0 then DEFAULT_LIMIT else if l > MAX_LIMIT then MAX_LIMIT else l,
               if nextToken == Some("") then None else nextToken)
  }

  /** The positions of the items with an id. */
  function Occurrences<T>(items: seq<T>, id: string, idOf: T -> string): (r: seq<nat>)
    ensures forall a :: 0 <= a < |r| ==> r[a] < |items| && idOf(items[r[a]]) == id
  {
    if items == [] then []
    else
      var n := |items| - 1;
      Occurrences(items[..n], id, idOf) + if idOf(items[n]) == id then [n] else []
  }

  /** Where the page starts: after the one item the token names. */
  function StartOf<T>(items: seq<T>, token: Option<string>, idOf: T -> string): (r: Result<nat, PageError>)
    ensures r.Ok? ==> r.value <= |items|
  {
    if token.None? || token.value == "" then Ok(0)
    else
      var found := Occurrences(items, token.value, idOf);
      if found == [] then Err(InvalidToken) else if |found| > 1 then Err(AmbiguousToken) else Ok(found[0] + 1)
  }

  function Min(a: nat, b: nat): nat { if a < b then a else b }

  /** The page from `start`; its token is the id of its last item while items remain. */
  function PageFrom<T>(items: seq<T>, start: nat, limit: nat, idOf: T -> string): Page<T>
    requires start <= |items|
  {
    var end := Min(start + limit, |items|);
    Page(items[start..end], if end < |items| && start < end then Some(idOf(items[end - 1])) else None)
  }

  function PageOf<T>(items: seq<T>, params: PageParams, idOf: T -> string): Result<Page<T>, PageError> {
    match StartOf(items, params.nextToken, idOf)
    case Ok(start) => Ok(PageFrom(items, start, params.limit, idOf))
    case Err(e) => Err(e)
  }

  method FindStart<T>(items: seq<T>, token: string, idOf: T -> string) returns (start: Result<nat, PageError>)
    requires token != ""
    ensures start == StartOf(items, Some(token), idOf)
  {
    var found: Option<nat> := None;
    for i := 0 to |items|
      invariant Occurrences(items[..i], token, idOf) == if found.Some? then [found.value] else []
    {
      OccurrencesStep(items, i, token, idOf);
      if idOf(items[i]) == token {
        if found.Some? {
          OccurrencesGrow(items, i + 1, token, idOf);
          return Err(AmbiguousToken);
        }
        found := Some(i);
      }
    }
    assert items[..|items|] == items;
    start := match found case None => Err(InvalidToken) case Some(f) => Ok(f + 1);
  }

  method PageById<T>(items: seq<T>, params: PageParams, idOf: T -> string) returns (r: Result<Page<T>, PageError>)
    ensures r == PageOf(items, params, idOf)
  {
    var start := 0;
    if params.nextToken.Some? && params.nextToken.value != "" {
      var found := FindStart(items, params.nextToken.value, idOf);
      if found.Err? {
        return Err(found.error);
      }
      start := found.value;
    }
    var end := Min(start + params.limit, |items|);
    var pageItems := items[start..end];
    var next: Option<string> := None;
    if end < |items| && pageItems != [] {
      next := Some(idOf(pageItems[|pageItems| - 1]));
    }
    r := Ok(Page(pageItems, next));
  }

  lemma OccurrencesStep<T>(items: seq<T>, i: nat, id: string, idOf: T -> string)
    requires i < |items|
    ensures Occurrences(items[..i + 1], id, idOf)
            == if idOf(items[i]) == id then Occurrences(items[..i], id, idOf) + [i] else Occurrences(items[..i], id, idOf)
  {
    assert items[..i + 1][..i] == items[..i];
  }

  lemma {:induction false} OccurrencesGrow<T>(items: seq<T>, i: nat, id: string, idOf: T -> string)
    requires i <= |items|
    ensures |Occurrences(items[..i], id, idOf)| <= |Occurrences(items, id, idOf)|
    decreases |items|
  {
    if i == |items| {
      assert items[..i] == items;
    } else {
      assert items[..|items| - 1][..i] == items[..i];
      OccurrencesGrow(items[..|items| - 1], i, id, idOf);
    }
  }

  // ----- following the tokens -----

  function PageStart(k: nat, limit: nat): nat { k * limit }

  /** The item before position `at` is one a token can name: its id is not empty and no other
      item has it. Asked only where items remain from `at` on. */
  ghost predicate EndOk<T>(items: seq<T>, at: nat, idOf: T -> string) {
    0 < at < |items| ==>
      && idOf(items[at - 1]) != ""
      && forall i :: 0 <= i < |items| && idOf(items[i]) == idOf(items[at - 1]) ==> i == at - 1
  }

  /** The page ends before the `k`-th. */
  ghost predicate EndsBefore<T>(items: seq<T>, limit: nat, idOf: T -> string, k: nat) {
    forall j :: 0 < j < k ==> EndOk(items, PageStart(j, limit), idOf)
  }

  ghost predicate GoodEnds<T>(items: seq<T>, limit: nat, idOf: T -> string) {
    forall j :: 0 < j ==> EndOk(items, PageStart(j, limit), idOf)
  }

  /** The `k`-th of the answers a client gets that goes on with `next`; None once it stops. */
  function Walk<A>(first: A, next: A -> Option<A>, k: nat): Option<A> {
    if k == 0 then Some(first)
    else
      match Walk(first, next, k - 1)
      case None => None
      case Some(last) => next(last)
  }

  /** What a client that follows tokens gets after an answer; None when it stops there. */
  function Follow<T>(items: seq<T>, limit: nat, idOf: T -> string, last: Result<Page<T>, PageError>): Option<Result<Page<T>, PageError>> {
    match last
    case Err(_) => None
    case Ok(page) =>
      if page.nextToken.None? then None else Some(PageOf(items, PageParams(limit, page.nextToken), idOf))
  }

  /** The answer to the `k`-th request of a client that follows tokens. */
  function Answer<T>(items: seq<T>, limit: nat, idOf: T -> string, k: nat): Option<Result<Page<T>, PageError>> {
    Walk(PageOf(items, PageParams(limit, None), idOf),
         (last: Result<Page<T>, PageError>) => Follow(items, limit, idOf, last), k)
  }

  /** Requests needed for `n` items: rounded up, and one for an empty list. */
  function Requests(n: nat, limit: nat): nat
    requires limit >= 1
  {
    if n == 0 then 1 else (n + limit - 1) / limit
  }

  lemma {:induction false} OnlyOccurrence<T>(items: seq<T>, i: nat, idOf: T -> string)
    requires i < |items| && forall j :: 0 <= j < |items| && idOf(items[j]) == idOf(items[i]) ==> j == i
    ensures Occurrences(items, idOf(items[i]), idOf) == [i]
    decreases |items|
  {
    var n := |items| - 1;
    if i < n {
      OnlyOccurrence(items[..n], i, idOf);
    } else {
      NoOccurrence(items[..n], idOf(items[n]), idOf);
    }
  }

  lemma {:induction false} Occurs<T>(items: seq<T>, i: nat, id: string, idOf: T -> string)
    requires i < |items| && idOf(items[i]) == id
    ensures |Occurrences(items, id, idOf)| >= 1
    decreases |items|
  {
    if i < |items| - 1 {
      Occurs(items[..|items| - 1], i, id, idOf);
    }
  }

  lemma {:induction false} OccursTwice<T>(items: seq<T>, i: nat, j: nat, id: string, idOf: T -> string)
    requires i < j < |items| && idOf(items[i]) == id && idOf(items[j]) == id
    ensures |Occurrences(items, id, idOf)| > 1
    decreases |items|
  {
    if j < |items| - 1 {
      OccursTwice(items[..|items| - 1], i, j, id, idOf);
    } else {
      Occurs(items[..|items| - 1], i, id, idOf);
    }
  }

  lemma {:induction false} NoOccurrence<T>(items: seq<T>, id: string, idOf: T -> string)
    requires forall i :: 0 <= i < |items| ==> idOf(items[i]) != id
    ensures Occurrences(items, id, idOf) == []
    decreases |items|
  {
    if items != [] {
      NoOccurrence(items[..|items| - 1], id, idOf);
    }
  }

  /** The token of a page that does not reach the end, and the page it leads to. */
  lemma NextPage<T>(items: seq<T>, start: nat, limit: nat, idOf: T -> string)
    requires limit >= 1 && start + limit < |items| && EndOk(items, start + limit, idOf)
    ensures PageFrom(items, start, limit, idOf).nextToken == Some(idOf(items[start + limit - 1]))
    ensures PageOf(items, PageParams(limit, PageFrom(items, start, limit, idOf).nextToken), idOf)
            == Ok(PageFrom(items, start + limit, limit, idOf))
  {
    OnlyOccurrence(items, start + limit - 1, idOf);
  }

  lemma StepBack(k: nat, limit: nat)
    requires k > 0
    ensures (k - 1) * limit + limit == k * limit
  {}

  lemma {:induction false} AnswerIs<T>(items: seq<T>, limit: nat, idOf: T -> string, k: nat, at: nat)
    requires EndsBefore(items, limit, idOf, k + 1) && limit >= 1 && at == k * limit
    requires k == 0 || at < |items|
    ensures at <= |items| && Answer(items, limit, idOf, k) == Some(Ok(PageFrom(items, at, limit, idOf)))
    decreases k
  {
    if k > 0 {
      StepBack(k, limit);
      AnswerIs(items, limit, idOf, k - 1, at - limit);
      assert EndOk(items, PageStart(k, limit), idOf);
      NextPage(items, at - limit, limit, idOf);
    }
  }

  lemma RequestsBound(n: nat, limit: nat, k: nat)
    requires limit >= 1 && n >= 1
    ensures k < Requests(n, limit) <==> k * limit < n
  {
    var m := Requests(n, limit);
    DivisionBounds(n + limit - 1, limit);
    if k < m {
      MulAtMost(k + 1, m, limit);
      StepBack(k + 1, limit);
    } else {
      MulAtMost(m, k, limit);
    }
  }

  lemma DivisionBounds(a: nat, b: nat)
    requires b >= 1
    ensures a / b * b <= a < a / b * b + b
  {}

  lemma MulAtMost(a: nat, b: nat, n: nat)
    requires a <= b
    ensures a * n <= b * n
  {}

  /** The page that starts at the end of the list, or further on than it: there is none. */
  predicate IsLastPage(n: nat, at: nat, limit: nat) { at <= n <= at + limit }

  lemma LastStart(n: nat, limit: nat) returns (at: nat)
    requires limit >= 1
    ensures Requests(n, limit) >= 1 && at == (Requests(n, limit) - 1) * limit
    ensures IsLastPage(n, at, limit) && (Requests(n, limit) == 1 || at < n)
  {
    var k := Requests(n, limit);
    if n >= 1 {
      RequestsBound(n, limit, 0);
      RequestsBound(n, limit, k - 1);
      RequestsBound(n, limit, k);
      StepBack(k, limit);
    }
    at := (k - 1) * limit;
  }

  lemma LastPageHasNoToken<T>(items: seq<T>, at: nat, limit: nat, idOf: T -> string)
    requires at <= |items| && IsLastPage(|items|, at, limit)
    ensures PageFrom(items, at, limit, idOf).nextToken.None?
  {}

  lemma StopsAt<T>(items: seq<T>, limit: nat, idOf: T -> string, k: nat, at: nat)
    requires EndsBefore(items, limit, idOf, k) && limit >= 1 && k >= 1 && at == (k - 1) * limit
    requires IsLastPage(|items|, at, limit) && (k == 1 || at < |items|)
    ensures Answer(items, limit, idOf, k).None?
  {
    AnswerIs(items, limit, idOf, k - 1, at);
    LastPageHasNoToken(items, at, limit, idOf);
  }

  lemma {:induction false} StaysStopped<A>(first: A, next: A -> Option<A>, m: nat, k: nat)
    requires Walk(first, next, m).None? && m <= k
    ensures Walk(first, next, k).None?
    decreases k
  {
    if m < k {
      StaysStopped(first, next, m, k - 1);
    }
  }

  lemma AnswerStops<T>(items: seq<T>, limit: nat, idOf: T -> string, m: nat, k: nat)
    requires Answer(items, limit, idOf, m).None? && m <= k
    ensures Answer(items, limit, idOf, k).None?
  {
    StaysStopped(PageOf(items, PageParams(limit, None), idOf),
                 (last: Result<Page<T>, PageError>) => Follow(items, limit, idOf, last), m, k);
  }

  lemma StopsAfter<T>(items: seq<T>, limit: nat, idOf: T -> string, k: nat)
    requires GoodEnds(items, limit, idOf) && limit >= 1 && k >= Requests(|items|, limit)
    ensures Answer(items, limit, idOf, k).None?
  {
    var at := LastStart(|items|, limit);
    StopsAt(items, limit, idOf, Requests(|items|, limit), at);
    AnswerStops(items, limit, idOf, Requests(|items|, limit), k);
  }

  /** When the page ends can be named, following tokens takes exactly the requests needed, none
      fails, and request `k` returns the `k`-th stretch of the list. */
  lemma PagesCoverList<T>(items: seq<T>, limit: nat, idOf: T -> string, k: nat)
    requires GoodEnds(items, limit, idOf) && limit >= 1
    ensures k < Requests(|items|, limit) ==>
              && k * limit <= |items|
              && Answer(items, limit, idOf, k) == Some(Ok(PageFrom(items, k * limit, limit, idOf)))
    ensures k >= Requests(|items|, limit) ==> Answer(items, limit, idOf, k).None?
  {
    if k < Requests(|items|, limit) {
      if |items| >= 1 {
        RequestsBound(|items|, limit, k);
      }
      AnswerIs(items, limit, idOf, k, k * limit);
    } else {
      StopsAfter(items, limit, idOf, k);
    }
  }

  /** Everything the first `k` requests returned. */
  function Collected<T>(items: seq<T>, limit: nat, idOf: T -> string, k: nat): seq<T> {
    if k == 0 then []
    else
      var before := Collected(items, limit, idOf, k - 1);
      match Answer(items, limit, idOf, k - 1)
      case Some(Ok(page)) => before + page.items
      case _ => before
  }

  lemma {:induction false} CollectedIs<T>(items: seq<T>, limit: nat, idOf: T -> string, k: nat, at: nat)
    requires EndsBefore(items, limit, idOf, k) && limit >= 1 && at == k * limit
    requires k <= 1 || at - limit < |items|
    ensures Collected(items, limit, idOf, k) == items[..Min(at, |items|)]
    decreases k
  {
    if k > 0 {
      StepBack(k, limit);
      CollectedIs(items, limit, idOf, k - 1, at - limit);
      CollectedNext(items, limit, idOf, k - 1, at - limit);
      Adjacent(items, at - limit, Min(at, |items|));
    }
  }

  lemma CollectedNext<T>(items: seq<T>, limit: nat, idOf: T -> string, k: nat, at: nat)
    requires EndsBefore(items, limit, idOf, k + 1) && limit >= 1 && at == k * limit && (k == 0 || at < |items|)
    ensures at <= |items|
    ensures Collected(items, limit, idOf, k + 1) == Collected(items, limit, idOf, k) + items[at..Min(at + limit, |items|)]
  {
    AnswerIs(items, limit, idOf, k, at);
  }

  lemma InReach(n: nat, limit: nat, k: nat, at: nat)
    requires limit >= 1 && 0 < k <= Requests(n, limit) && at == k * limit
    ensures at - limit == (k - 1) * limit && (k == 1 || at - limit < n)
  {
    StepBack(k, limit);
    if n >= 1 {
      RequestsBound(n, limit, k - 1);
    }
  }

  lemma Adjacent<T>(items: seq<T>, a: nat, b: nat)
    requires a <= b <= |items|
    ensures items[..a] + items[a..b] == items[..b]
  {}

  /** The client gets the whole list, every item once and in order, in the requests needed. */
  ghost predicate WalkCovers<T>(items: seq<T>, limit: nat, idOf: T -> string)
    requires limit >= 1
  {
    && Collected(items, limit, idOf, Requests(|items|, limit)) == items
    && Answer(items, limit, idOf, Requests(|items|, limit)).None?
  }

  lemma WalkIsList<T>(items: seq<T>, limit: nat, idOf: T -> string)
    requires GoodEnds(items, limit, idOf) && limit >= 1
    ensures WalkCovers(items, limit, idOf)
  {
    var m := Requests(|items|, limit);
    InReach(|items|, limit, m, m * limit);
    CollectedIs(items, limit, idOf, m, m * limit);
    if |items| >= 1 {
      RequestsBound(|items|, limit, m);
    }
    assert items[..|items|] == items;
    StopsAfter(items, limit, idOf, m);
  }

  // ----- page ends that cannot be named -----

  lemma {:induction false} FirstBadEnd<T>(items: seq<T>, limit: nat, idOf: T -> string, k: nat) returns (bad: nat)
    requires k > 0 && !EndOk(items, PageStart(k, limit), idOf)
    ensures bad > 0 && !EndOk(items, PageStart(bad, limit), idOf) && EndsBefore(items, limit, idOf, bad)
    decreases k
  {
    if EndsBefore(items, limit, idOf, k) {
      bad := k;
    } else {
      var j :| 0 < j < k && !EndOk(items, PageStart(j, limit), idOf);
      bad := FirstBadEnd(items, limit, idOf, j);
    }
  }

  lemma AmbiguousEnd<T>(items: seq<T>, at: nat, idOf: T -> string)
    requires !EndOk(items, at, idOf) && idOf(items[at - 1]) != ""
    ensures StartOf(items, Some(idOf(items[at - 1])), idOf) == Err(AmbiguousToken)
  {
    var id := idOf(items[at - 1]);
    var i :| 0 <= i < |items| && idOf(items[i]) == id && i != at - 1;
    OccursTwice(items, Min(i, at - 1), if i < at - 1 then at - 1 else i, id, idOf);
  }

  lemma AnswerAfterEnd<T>(items: seq<T>, limit: nat, idOf: T -> string, k: nat, at: nat)
    requires limit >= 1 && at == k * limit && 0 < at < |items| && EndsBefore(items, limit, idOf, k)
    ensures Answer(items, limit, idOf, k) == Some(PageOf(items, PageParams(limit, Some(idOf(items[at - 1]))), idOf))
  {
    StepBack(k, limit);
    AnswerIs(items, limit, idOf, k - 1, at - limit);
  }

  /** After the first page end that cannot be named the client is at the start again, or is
      told that its token is ambiguous. */
  lemma AfterBadEnd<T>(items: seq<T>, limit: nat, idOf: T -> string, k: nat, at: nat)
    requires limit >= 1 && k > 0 && at == k * limit && !EndOk(items, at, idOf) && EndsBefore(items, limit, idOf, k)
    ensures 0 < at < |items|
    ensures idOf(items[at - 1]) == "" ==> Answer(items, limit, idOf, k) == Answer(items, limit, idOf, 0)
    ensures idOf(items[at - 1]) != "" ==> Answer(items, limit, idOf, k) == Some(Err(AmbiguousToken))
  {
    AnswerAfterEnd(items, limit, idOf, k, at);
    if idOf(items[at - 1]) != "" {
      AmbiguousEnd(items, at, idOf);
    }
  }

  lemma {:induction false} Periodic<A>(first: A, next: A -> Option<A>, k: nat, j: nat, at: nat)
    requires Walk(first, next, k) == Some(first) && at == k + j
    ensures Walk(first, next, at) == Walk(first, next, j)
    decreases j
  {
    if j > 0 {
      Periodic(first, next, k, j - 1, at - 1);
    }
  }

  /** A client that is sent back to the start never stops. */
  lemma {:induction false} NeverStops<A>(first: A, next: A -> Option<A>, k: nat, j: nat)
    requires k > 0 && Walk(first, next, k) == Some(first)
    ensures Walk(first, next, j).Some?
  {
    if j >= k {
      NeverStops(first, next, k, j - k);
      Periodic(first, next, k, j - k, j);
    } else if Walk(first, next, j).None? {
      StaysStopped(first, next, j, k);
    }
  }

  ghost predicate NoPage<T>(items: seq<T>, limit: nat, idOf: T -> string, k: nat) {
    Answer(items, limit, idOf, k).None? || Answer(items, limit, idOf, k).value.Err?
  }

  lemma AfterError<T>(items: seq<T>, limit: nat, idOf: T -> string, k: nat, m: nat)
    requires k <= m && Answer(items, limit, idOf, k) == Some(Err(AmbiguousToken))
    ensures NoPage(items, limit, idOf, m)
  {
    if k < m {
      assert Answer(items, limit, idOf, k + 1).None?;
      AnswerStops(items, limit, idOf, k + 1, m);
    }
  }

  lemma NothingMore<T>(items: seq<T>, limit: nat, idOf: T -> string, m: nat)
    requires m > 0 && NoPage(items, limit, idOf, m - 1)
    ensures Collected(items, limit, idOf, m) == Collected(items, limit, idOf, m - 1)
  {}

  lemma {:induction false} NothingFrom<T>(items: seq<T>, limit: nat, idOf: T -> string, k: nat, m: nat)
    requires k <= m && forall j :: k <= j < m ==> NoPage(items, limit, idOf, j)
    ensures Collected(items, limit, idOf, m) == Collected(items, limit, idOf, k)
    decreases m
  {
    if k < m {
      NothingMore(items, limit, idOf, m);
      NothingFrom(items, limit, idOf, k, m - 1);
    }
  }

  lemma AnswersForever<T>(items: seq<T>, limit: nat, idOf: T -> string, k: nat, j: nat)
    requires k > 0 && Answer(items, limit, idOf, k) == Answer(items, limit, idOf, 0)
    ensures Answer(items, limit, idOf, j).Some?
  {
    NeverStops(PageOf(items, PageParams(limit, None), idOf),
               (last: Result<Page<T>, PageError>) => Follow(items, limit, idOf, last), k, j);
  }

  lemma BadEndSpoils<T>(items: seq<T>, limit: nat, idOf: T -> string, k: nat, at: nat)
    requires limit >= 1 && k > 0 && at == k * limit && !EndOk(items, at, idOf) && EndsBefore(items, limit, idOf, k)
    ensures !WalkCovers(items, limit, idOf)
  {
    AfterBadEnd(items, limit, idOf, k, at);
    var m := Requests(|items|, limit);
    if idOf(items[at - 1]) == "" {
      AnswersForever(items, limit, idOf, k, m);
    } else {
      RequestsBound(|items|, limit, k);
      forall j | k <= j < m ensures NoPage(items, limit, idOf, j) {
        AfterError(items, limit, idOf, k, j);
      }
      NothingFrom(items, limit, idOf, k, m);
      CollectedIs(items, limit, idOf, k, at);
      assert Collected(items, limit, idOf, m) == items[..at];
    }
  }

  /** A client gets the whole list in the requests needed exactly when every page that is not
      the last ends with an id that is not empty and that no other item has. */
  lemma WalkIff<T>(items: seq<T>, limit: nat, idOf: T -> string)
    requires limit >= 1
    ensures WalkCovers(items, limit, idOf) <==> GoodEnds(items, limit, idOf)
  {
    if GoodEnds(items, limit, idOf) {
      WalkIsList(items, limit, idOf);
    } else {
      var k :| 0 < k && !EndOk(items, PageStart(k, limit), idOf);
      var bad := FirstBadEnd(items, limit, idOf, k);
      BadEndSpoils(items, limit, idOf, bad, bad * limit);
    }
  }

  /** So an empty id at a page end sends the client back to the start, for ever. */
  lemma {:induction false} EmptyIdLoops(k: nat)
    ensures var idOf := (s: string) => s;
            && !WalkCovers(["", "b"], 1, idOf)
            && Answer(["", "b"], 1, idOf, k) == Some(Ok(Page([""], Some(""))))
  {
    var idOf := (s: string) => s;
    assert PageFrom(["", "b"], 0, 1, idOf) == Page([""], Some(""));
    assert !EndOk(["", "b"], PageStart(1, 1), idOf);
    WalkIff(["", "b"], 1, idOf);
    if k > 0 {
      EmptyIdLoops(k - 1);
    }
  }

  // ----- the BOM list -----

  /** In every run whose uploads have ids that are not empty, a client that follows the tokens of
      the BOM list while the lock is free sees every BOM of the account exactly once, newest
      first. */
  lemma BomPagesCoverAll(events: seq<BomProtocol.Event>, limit: nat)
    requires BomProtocol.Run(events).Some? && BomProtocol.Run(events).value.lock.Free? && limit >= 1
    requires forall i :: 0 <= i < |events| ==> !BomContent.Creates(events[i], "")
    ensures var d := BomProtocol.Run(events).value.docs;
            var idOf := (b: BomSummary) => b.id;
            var listed := ListBoms(d);
            && Collected(listed, limit, idOf, Requests(|listed|, limit)) == listed
            && (forall k :: k >= Requests(|listed|, limit) ==> Answer(listed, limit, idOf, k).None?)
            && (forall i, j :: 0 <= i < j < |listed| ==> listed[i].id != listed[j].id)
            && (forall id :: id in d.metadata <==> exists i :: 0 <= i < |listed| && listed[i].id == id)
  {
    var d := BomProtocol.Run(events).value.docs;
    var idOf := (b: BomSummary) => b.id;
    var listed := ListBoms(d);
    BomContent.OnlyCreatedIds(events, "");
    BomGuarantees.IndexAgrees(events, "");
    BomGuarantees.ListedSummaries(d.index);
    forall id ensures id in d.metadata <==> exists i :: 0 <= i < |listed| && listed[i].id == id {
      BomGuarantees.IndexAgrees(events, id);
      ListedIds(d, id);
    }
    forall i | 0 <= i < |listed| ensures idOf(listed[i]) != "" {
      assert listed[i].id in d.metadata;
    }
    assert GoodEnds(listed, limit, idOf);
    WalkIsList(listed, limit, idOf);
    forall k | k >= Requests(|listed|, limit) ensures Answer(listed, limit, idOf, k).None? {
      StopsAfter(listed, limit, idOf, k);
    }
  }

  lemma ListedIds(d: Docs, id: string)
    requires DistinctIds(d.index)
    ensures HasId(d.index, id) <==> exists i :: 0 <= i < |ListBoms(d)| && ListBoms(d)[i].id == id
  {
    var listed := ListBoms(d);
    BomGuarantees.ListedSummaries(d.index);
    if HasId(d.index, id) {
      var k :| 0 <= k < |d.index| && d.index[k].id == id;
      assert NormalizeSummary(d.index[k]) in listed;
    }
    if i :| 0 <= i < |listed| && listed[i].id == id {
      assert listed[i] in listed;
    }
  }
}
