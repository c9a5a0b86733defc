/** Resolving one part against a provider and storing the answer (`worker.rs`). */
module Worker {
  import opened Prelude
  import opened PartKeys
  import opened SnapshotCodec
  import opened PartStore

  /** What the provider says: a part, no match at some time, or a failure. */
  datatype Answer = Found(part: PartResult) | NoPart(at: string) | Failure

  function NoMatchPart(at: string): PartResult {
    PartResult(None, None, None, NoneMatched, NoMatch, Unknown, 0, None, None, None, None, at)
  }

  /** The snapshot an answer leaves behind; a failure leaves none. */
  function Answered(a: Answer): Option<PartResult> {
    match a
    case Found(part) => Some(part)
    case NoPart(at) => Some(NoMatchPart(at))
    case Failure => None
  }

  function KeyOf(q: PartQuery, upper: string -> string): Key { Key(PartKey(q, upper)) }

  function ItemAt(items: map<Key, Item>, pk: Key): Option<Item> { if pk in items then Some(items[pk]) else None }

  /** A provider: its answer to every query, and the queries it was asked, in order. */
  class Provider {
    const answers: PartQuery -> Answer
    var asked: seq<PartQuery>

    constructor (answers: PartQuery -> Answer)
      ensures this.answers == answers && asked == []
    {
      this.answers := answers;
      asked := [];
    }

    method Lookup(q: PartQuery) returns (a: Answer)
      modifies this`asked
      ensures a == answers(q) && asked == old(asked) + [q]
    {
      asked := asked + [q];
      a := answers(q);
    }
  }

  /** Asks the provider once and stores what it says. */
  method ProcessOne(t: Tables, p: Provider, q: PartQuery, upper: string -> string) returns (r: Option<PartResult>)
    modifies t`items, p`asked
    ensures r == Answered(p.answers(q)) && p.asked == old(p.asked) + [q]
    ensures t.items == if r.Some? then old(t.items)[KeyOf(q, upper) := Encode(PartKey(q, upper), r.value)] else old(t.items)
  {
    var pk := Key(PartKey(q, upper));
    var answer := p.Lookup(q);
    match answer
    case Found(part) =>
      t.PutSnapshot(pk, part);
      r := Some(part);
    case NoPart(at) =>
      var snapshot := NoMatchPart(at);
      t.PutSnapshot(pk, snapshot);
      r := Some(snapshot);
    case Failure =>
      r := None;
  }
}
