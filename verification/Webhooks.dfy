/** Stripe deliveries, checkouts, grants and status reads interleaved (`billing.rs`). Each
    store access is a step; a failed write may or may not have reached the store. */
module Webhooks {
  import opened Prelude
  import opened Billing

  /** Who writes a billing record: an event, or a checkout that got its Stripe customer. */
  datatype Writer = ByEvent(event: StripeEvent) | ByCheckout(user: User, customer: string)

  /** A write of an account's record: what it made of `base`, which its task had read when
      `since` writes had been made. */
  datatype Put = Put(account: string, by_: Writer, base: BillingRecord, since: nat)

  datatype Task =
    | Claimed(event: StripeEvent)
    | Holding(event: StripeEvent, base: BillingRecord, since: nat)
    | Failing(event: StripeEvent)
    | CheckingOut(user: User, record: BillingRecord, since: nat)
    | Copying(account: string, grant: PlanOverride, email: string)

  /** The store, the tasks in progress, and for the proofs: the ids of events applied
      successfully, in order, the ids whose claim outlived a failure, and the writes of
      records, in order. */
  datatype State = State(store: Store, tasks: map<nat, Task>, applied: seq<string>, lost: set<string>, log: seq<Put>)

  datatype Event =
    | Deliver(task: nat, event: StripeEvent)
    | FailClaim(event: StripeEvent, recorded: bool)
    | Read(task: nat, found: Option<string>)
    | Write(task: nat)
    | Fail(task: nat, written: bool)
    | Release(task: nat, ok: bool)
    | BeginCheckout(task: nat, user: User)
    | SaveCustomer(task: nat, customer: string)
    | SetPlan(account: string, plan: Plan, expiry: Expiry, note: Option<string>)
    | PutGrant(key: string, expiry: Expiry)
    | DeleteGrant(key: string)
    | BeginStatus(task: nat, user: User, now: int)
    | CopyGrant(task: nat)

  function Initial(): State { State(Store(map[], map[], map[], {}), map[], [], {}, []) }

  /** What a write makes of the record its task read. */
  function Effect(r: BillingRecord, by_: Writer, prices: Prices): BillingRecord {
    match by_
    case ByEvent(e) => Updated(r, e, prices)
    case ByCheckout(_, customer) => r.(customer := Some(customer))
  }

  function PutLogged(s: State, p: Put, prices: Prices): State {
    s.(store := PutRecord(s.store, Effect(p.base, p.by_, prices)), log := s.log + [p])
  }

  function Done(s: State, t: nat): State { s.(tasks := s.tasks - {t}) }

  function DeliverStep(s: State, t: nat, e: StripeEvent): Option<State> {
    if t in s.tasks then None
    else if !IsHandled(e.kind) || e.id in s.store.seen then Some(s)
    else Some(s.(store := s.store.(seen := s.store.seen + {e.id}), tasks := s.tasks[t := Claimed(e)]))
  }

  function FailClaimStep(s: State, e: StripeEvent, recorded: bool): Option<State> {
    if e.id in s.store.seen || !recorded then Some(s)
    else Some(s.(store := s.store.(seen := s.store.seen + {e.id}), lost := s.lost + {e.id}))
  }

  /** Fetch the record; an event about no record is done. */
  function ReadStep(s: State, t: nat, found: Option<string>): Option<State> {
    if t !in s.tasks || !s.tasks[t].Claimed? then None
    else
      var e := s.tasks[t].event;
      match RecordFor(s.store, e, found)
      case Some(r) => Some(s.(tasks := s.tasks[t := Holding(e, r, |s.log|)]))
      case None => Some(Done(s, t).(applied := s.applied + [e.id]))
  }

  function EventPut(e: StripeEvent, base: BillingRecord, since: nat): Put { Put(base.accountId, ByEvent(e), base, since) }

  function WriteStep(s: State, t: nat, prices: Prices): Option<State> {
    if t !in s.tasks || !s.tasks[t].Holding? then None
    else
      var h := s.tasks[t];
      Some(Done(PutLogged(s, EventPut(h.event, h.base, h.since), prices), t).(applied := s.applied + [h.event.id]))
  }

  /** Reading or writing the record failed. */
  function FailStep(s: State, t: nat, written: bool, prices: Prices): Option<State> {
    if t !in s.tasks || !(s.tasks[t].Claimed? || s.tasks[t].Holding?) then None
    else
      var h := s.tasks[t];
      var s' := if written && h.Holding? then PutLogged(s, EventPut(h.event, h.base, h.since), prices) else s;
      Some(s'.(tasks := s.tasks[t := Failing(h.event)]))
  }

  function ReleaseStep(s: State, t: nat, ok: bool): Option<State> {
    if t !in s.tasks || !s.tasks[t].Failing? then None
    else
      var id := s.tasks[t].event.id;
      if ok then Some(Done(s, t).(store := s.store.(seen := s.store.seen - {id})))
      else Some(Done(s, t).(lost := s.lost + {id}))
  }

  /** A checkout keeps the record it read while Stripe creates the customer. */
  function BeginCheckoutStep(s: State, t: nat, user: User): Option<State> {
    if t in s.tasks then None
    else
      var r := RecordOf(s.store, user);
      if r.customer.Some? then Some(s) else Some(s.(tasks := s.tasks[t := CheckingOut(user, r, |s.log|)]))
  }

  function SaveCustomerStep(s: State, t: nat, customer: string, prices: Prices): Option<State> {
    if t !in s.tasks || !s.tasks[t].CheckingOut? then None
    else
      var c := s.tasks[t];
      Some(Done(PutLogged(s, Put(c.record.accountId, ByCheckout(c.user, customer), c.record, c.since), prices), t))
  }

  function BeginStatusStep(s: State, t: nat, user: User, now: int): Option<State> {
    if t in s.tasks then None
    else if IsActive(OverrideOf(s.store, user.accountId), now) || user.email.None? then Some(s)
    else
      match TeamStore.NormalizeEmail(user.email.value)
      case None => Some(s)
      case Some(key) =>
        if key in s.store.grants && GrantIsActive(s.store.grants[key], now) then
          Some(s.(tasks := s.tasks[t := Copying(user.accountId, s.store.grants[key], user.email.value)]))
        else Some(s)
  }

  function CopyGrantStep(s: State, t: nat): Option<State> {
    if t !in s.tasks || !s.tasks[t].Copying? then None
    else
      var c := s.tasks[t];
      Some(Done(s, t).(store := SetOverride(s.store, c.account, c.grant.plan, c.grant.expiry, Some(c.email))))
  }

  function Step(s: State, e: Event, prices: Prices): Option<State> {
    match e
    case Deliver(t, event) => DeliverStep(s, t, event)
    case FailClaim(event, recorded) => FailClaimStep(s, event, recorded)
    case Read(t, found) => ReadStep(s, t, found)
    case Write(t) => WriteStep(s, t, prices)
    case Fail(t, written) => FailStep(s, t, written, prices)
    case Release(t, ok) => ReleaseStep(s, t, ok)
    case BeginCheckout(t, user) => BeginCheckoutStep(s, t, user)
    case SaveCustomer(t, customer) => SaveCustomerStep(s, t, customer, prices)
    case SetPlan(account, plan, expiry, note) =>
      Some(s.(store := SetOverride(s.store, account, plan, expiry, note)))
    case PutGrant(key, expiry) =>
      Some(s.(store := s.store.(grants := s.store.grants[key := PlanOverride(Scale, expiry, Some(key))])))
    case DeleteGrant(key) => Some(s.(store := s.store.(grants := s.store.grants - {key})))
    case BeginStatus(t, user, now) => BeginStatusStep(s, t, user, now)
    case CopyGrant(t) => CopyGrantStep(s, t)
  }

  function Run(s: State, events: seq<Event>, prices: Prices): Option<State> {
    if events == [] then Some(s)
    else
      match Run(s, events[..|events| - 1], prices)
      case None => None
      case Some(mid) => Step(mid, events[|events| - 1], prices)
  }

  // ----- the invariant -----

  predicate AppliesEvent(t: Task) { t.Claimed? || t.Holding? || t.Failing? }

  /** Task `t` holds the claim on `id`. */
  ghost predicate InFlight(s: State, t: nat, id: string) {
    t in s.tasks && AppliesEvent(s.tasks[t]) && s.tasks[t].event.id == id
  }

  /** Each recorded id has exactly one reason to be there: it was applied, one task is at
      work on it, or its claim was left behind. */
  ghost predicate ClaimsOk(s: State) {
    && (forall id :: id in s.store.seen <==> id in s.applied || id in s.lost || exists t :: InFlight(s, t, id))
    && (forall t, u, id :: InFlight(s, t, id) && InFlight(s, u, id) ==> t == u)
    && (forall t, id :: InFlight(s, t, id) ==> id !in s.applied && id !in s.lost)
    && (forall id :: id in s.applied ==> id !in s.lost)
    && (forall i, j :: 0 <= i < j < |s.applied| ==> s.applied[i] != s.applied[j])
  }

  ghost predicate TaskSound(t: Task) {
    match t
    case Claimed(_) => true
    case Holding(_, _, _) => true
    case Failing(_) => true
    case CheckingOut(_, r, _) => RecordSound(r)
    case Copying(_, grant, _) => !grant.plan.Free?
  }

  ghost predicate TasksSound(s: State) {
    forall t :: t in s.tasks ==> TaskSound(s.tasks[t])
  }

  ghost predicate Inv(s: State) { ClaimsOk(s) && Sound(s.store) && TasksSound(s) }

  lemma PutKeepsSound(s: Store, r: BillingRecord)
    requires Sound(s) && RecordSound(r)
    ensures Sound(PutRecord(s, r))
  {}

  /** Plans stay sound: a record comes from an event, which clears unentitled plans, or from
      a checkout's snapshot of a sound one. */
  lemma StepKeepsSound(s: State, e: Event, prices: Prices)
    requires Sound(s.store) && TasksSound(s) && Step(s, e, prices).Some?
    ensures Sound(Step(s, e, prices).value.store)
  {
    match e
    case Write(t) =>
      PaidIff(s.tasks[t].base, s.tasks[t].event, prices);
      PutKeepsSound(s.store, Updated(s.tasks[t].base, s.tasks[t].event, prices));
    case Fail(t, written) =>
      if written && s.tasks[t].Holding? {
        PaidIff(s.tasks[t].base, s.tasks[t].event, prices);
        PutKeepsSound(s.store, Updated(s.tasks[t].base, s.tasks[t].event, prices));
      }
    case SaveCustomer(t, customer) =>
      assert TaskSound(s.tasks[t]);
      PutKeepsSound(s.store, s.tasks[t].record.(customer := Some(customer)));
    case CopyGrant(t) =>
      assert TaskSound(s.tasks[t]);
    case _ =>
  }

  lemma StepKeepsTasks(s: State, e: Event, prices: Prices)
    requires Sound(s.store) && TasksSound(s) && Step(s, e, prices).Some?
    ensures TasksSound(Step(s, e, prices).value)
  {}

  lemma DeliverKeeps(s: State, t: nat, e: StripeEvent)
    requires ClaimsOk(s) && DeliverStep(s, t, e).Some?
    ensures ClaimsOk(DeliverStep(s, t, e).value)
  {
    var s' := DeliverStep(s, t, e).value;
    if s' != s {
      assert InFlight(s', t, e.id);
      forall u, id | u != t ensures InFlight(s', u, id) <==> InFlight(s, u, id) {}
      forall id ensures id in s'.store.seen <==> id in s'.applied || id in s'.lost || exists u :: InFlight(s', u, id) {
        if u :| InFlight(s, u, id) {
          assert InFlight(s', u, id);
        }
      }
    }
  }

  lemma FailClaimKeeps(s: State, e: StripeEvent, recorded: bool)
    requires ClaimsOk(s)
    ensures ClaimsOk(FailClaimStep(s, e, recorded).value)
  {
    var s' := FailClaimStep(s, e, recorded).value;
    forall u, id ensures InFlight(s', u, id) <==> InFlight(s, u, id) {}
    if s' != s {
      forall id ensures id in s'.store.seen <==> id in s'.applied || id in s'.lost || exists u :: InFlight(s', u, id) {
        if u :| InFlight(s, u, id) {
          assert InFlight(s', u, id);
        }
      }
    }
  }

  /** A task moves on with the same event. */
  lemma SameFlights(s: State, s': State)
    requires ClaimsOk(s) && s'.store.seen == s.store.seen && s'.applied == s.applied && s'.lost == s.lost
    requires forall t, id :: InFlight(s', t, id) <==> InFlight(s, t, id)
    ensures ClaimsOk(s')
  {
    forall id ensures id in s'.store.seen <==> id in s'.applied || id in s'.lost || exists t :: InFlight(s', t, id) {
      if t :| InFlight(s, t, id) {
        assert InFlight(s', t, id);
      }
    }
  }

  /** A task ends: its id was applied, left behind or given back. */
  lemma FlightEnds(s: State, s': State, t: nat, id: string)
    requires ClaimsOk(s) && InFlight(s, t, id)
    requires s'.tasks == s.tasks - {t}
    requires || (s'.applied == s.applied + [id] && s'.lost == s.lost && s'.store.seen == s.store.seen)
             || (s'.applied == s.applied && s'.lost == s.lost + {id} && s'.store.seen == s.store.seen)
             || (s'.applied == s.applied && s'.lost == s.lost && s'.store.seen == s.store.seen - {id})
    ensures ClaimsOk(s')
  {
    forall u, x ensures InFlight(s', u, x) <==> InFlight(s, u, x) && x != id {}
    forall x ensures x in s'.store.seen <==> x in s'.applied || x in s'.lost || exists u :: InFlight(s', u, x) {
      if x != id {
        if u :| InFlight(s, u, x) {
          assert InFlight(s', u, x);
        }
        assert x in s'.applied <==> x in s.applied;
      }
    }
  }

  lemma StepKeepsClaims(s: State, e: Event, prices: Prices)
    requires ClaimsOk(s) && Step(s, e, prices).Some?
    ensures ClaimsOk(Step(s, e, prices).value)
  {
    var s' := Step(s, e, prices).value;
    match e
    case Deliver(t, event) => DeliverKeeps(s, t, event);
    case FailClaim(event, recorded) => FailClaimKeeps(s, event, recorded);
    case Read(t, found) =>
      assert InFlight(s, t, s.tasks[t].event.id);
      if RecordFor(s.store, s.tasks[t].event, found).Some? {
        SameFlights(s, s');
      } else {
        FlightEnds(s, s', t, s.tasks[t].event.id);
      }
    case Write(t) => FlightEnds(s, s', t, s.tasks[t].event.id);
    case Release(t, ok) => FlightEnds(s, s', t, s.tasks[t].event.id);
    case _ => SameFlights(s, s');
  }

  lemma {:induction false} RunKeepsInv(events: seq<Event>, prices: Prices)
    requires Run(Initial(), events, prices).Some?
    ensures Inv(Run(Initial(), events, prices).value)
    decreases |events|
  {
    if events != [] {
      var init := events[..|events| - 1];
      RunKeepsInv(init, prices);
      var s, e := Run(Initial(), init, prices).value, events[|events| - 1];
      StepKeepsClaims(s, e, prices);
      StepKeepsSound(s, e, prices);
      StepKeepsTasks(s, e, prices);
    }
  }

  // ----- results -----

  /** Under any interleaving no event is applied successfully twice, and no event that was
      applied is being applied again. */
  lemma AppliedAtMostOnce(events: seq<Event>, prices: Prices)
    requires Run(Initial(), events, prices).Some?
    ensures var s := Run(Initial(), events, prices).value;
            && (forall i, j :: 0 <= i < j < |s.applied| ==> s.applied[i] != s.applied[j])
            && (forall t, id :: InFlight(s, t, id) ==> id !in s.applied)
            && (forall t, u, id :: InFlight(s, t, id) && InFlight(s, u, id) ==> t == u)
  {
    RunKeepsInv(events, prices);
  }

  /** When a delivery is turned away as a duplicate: exactly when its event was applied, is
      being applied, or left its claim behind in a failed release or claim. */
  lemma DuplicateIff(events: seq<Event>, prices: Prices, t: nat, e: StripeEvent)
    requires Run(Initial(), events, prices).Some?
    requires var s := Run(Initial(), events, prices).value; t !in s.tasks && IsHandled(e.kind)
    ensures var s := Run(Initial(), events, prices).value;
            DeliverStep(s, t, e) == Some(s) <==> e.id in s.applied || e.id in s.lost || exists u :: InFlight(s, u, e.id)
  {
    RunKeepsInv(events, prices);
    var s := Run(Initial(), events, prices).value;
    if e.id !in s.store.seen {
      assert t in DeliverStep(s, t, e).value.tasks;
    }
  }

  /** Once its release went through, a failed event can be claimed and applied again: its
      next delivery ends with one more successful application. */
  lemma FailedCanApplyAgain(events: seq<Event>, prices: Prices, t: nat, found: Option<string>)
    requires Run(Initial(), events, prices).Some?
    requires var s := Run(Initial(), events, prices).value;
             t in s.tasks && s.tasks[t].Failing? && IsHandled(s.tasks[t].event.kind)
    ensures var s := Run(Initial(), events, prices).value;
            var e := s.tasks[t].event;
            var released := ReleaseStep(s, t, true).value;
            var claimed := DeliverStep(released, t, e).value;
            var read := ReadStep(claimed, t, found);
            && released.store.seen == s.store.seen - {e.id}
            && claimed.tasks == released.tasks[t := Claimed(e)]
            && read.Some?
            && (var end := if t in read.value.tasks then WriteStep(read.value, t, prices) else read;
                && end.Some? && end.value.applied == s.applied + [e.id]
                && end.value.store == ApplyEvent(s.store, e, prices, found)
                && t !in end.value.tasks)
  {
    RunKeepsInv(events, prices);
    var s := Run(Initial(), events, prices).value;
    var e := s.tasks[t].event;
    assert InFlight(s, t, e.id);
    var claimed := DeliverStep(ReleaseStep(s, t, true).value, t, e).value;
    assert claimed.store == s.store by {
      assert s.store.seen - {e.id} + {e.id} == s.store.seen;
    }
  }

  /** In every reachable state the stored plans are sound, and whoever asks resolves to an
      account that is provisioned exactly when its plan is not free. */
  lemma PlansStaySound(events: seq<Event>, prices: Prices, user: User, now: int)
    requires Run(Initial(), events, prices).Some?
    ensures var s := Run(Initial(), events, prices).value;
            && (forall a :: a in s.store.records && !s.store.records[a].status.Entitling() ==> s.store.records[a].plan.Free?)
            && (forall a :: a in s.store.overrides ==> !s.store.overrides[a].plan.Free?)
            && (var r := ResolveStatus(s.store, user, now).1; r.Ok? ==> (r.value.provisioned <==> !r.value.plan.Free?))
  {
    RunKeepsInv(events, prices);
    ResolveOnSound(Run(Initial(), events, prices).value.store, user, now);
  }

  /** An uninterrupted delivery does what the service's call does. */
  lemma DeliveryIsItsSteps(s: State, t: nat, e: StripeEvent, found: Option<string>, prices: Prices)
    requires t !in s.tasks && IsHandled(e.kind) && e.id !in s.store.seen
    ensures var read := ReadStep(DeliverStep(s, t, e).value, t, found);
            && read.Some?
            && (var end := if t in read.value.tasks then WriteStep(read.value, t, prices) else read;
                && end.Some?
                && end.value.store == ApplyEvent(s.store, e, prices, found).(seen := s.store.seen + {e.id})
                && end.value.tasks == s.tasks)
  {
    var claimed := DeliverStep(s, t, e).value;
    assert RecordFor(claimed.store, e, found) == RecordFor(s.store, e, found);
    assert claimed.tasks - {t} == s.tasks;
    if RecordFor(s.store, e, found).Some? {
      assert ReadStep(claimed, t, found).value.tasks - {t} == s.tasks;
    }
  }

  // ----- which writes a record reflects -----

  /** The record a task without one starts from. */
  function Start(by_: Writer, account: string): BillingRecord {
    match by_
    case ByEvent(e) =>
      NewRecord(account, None).(customer := CustomerOf(e.object_), subscription := SubscriptionOf(e.object_))
    case ByCheckout(user, _) => NewRecord(account, user.email)
  }

  /** The account's record after the writes. */
  function Current(log: seq<Put>, account: string, prices: Prices): Option<BillingRecord> {
    if log == [] then None
    else
      var last := log[|log| - 1];
      if last.account == account then Some(Effect(last.base, last.by_, prices)) else Current(log[..|log| - 1], account, prices)
  }

  /** What a task reads after the writes. */
  function ReadAt(log: seq<Put>, by_: Writer, account: string, prices: Prices): BillingRecord {
    Current(log, account, prices).GetOr(Start(by_, account))
  }

  ghost predicate PutOk(log: seq<Put>, p: Put, prices: Prices) {
    && p.since <= |log| && p.base.accountId == p.account
    && p.base == ReadAt(log[..p.since], p.by_, p.account, prices)
  }

  ghost predicate LogOk(log: seq<Put>, prices: Prices) {
    forall i :: 0 <= i < |log| ==> PutOk(log[..i], log[i], prices)
  }

  /** Every task that keeps a record read it from the store. */
  ghost predicate TaskRead(log: seq<Put>, t: Task, prices: Prices) {
    match t
    case Holding(e, base, since) => PutOk(log, EventPut(e, base, since), prices)
    case CheckingOut(user, r, since) => PutOk(log, Put(user.accountId, ByCheckout(user, ""), r, since), prices)
    case _ => true
  }

  ghost predicate Records(s: State, prices: Prices) {
    forall a :: Current(s.log, a, prices) == if a in s.store.records then Some(s.store.records[a]) else None
  }

  ghost predicate Logged(s: State, prices: Prices) {
    && Records(s, prices) && LogOk(s.log, prices)
    && (forall a :: a in s.store.records ==> s.store.records[a].accountId == a)
    && (forall t :: t in s.tasks ==> TaskRead(s.log, s.tasks[t], prices))
  }

  /** A write that was read from an earlier log was read from this one too. */
  lemma ReadEarlier(log: seq<Put>, p: Put, q: Put, prices: Prices)
    requires PutOk(log, p, prices)
    ensures PutOk(log + [q], p, prices)
  {
    assert (log + [q])[..p.since] == log[..p.since];
  }

  lemma TaskReadEarlier(log: seq<Put>, t: Task, q: Put, prices: Prices)
    requires TaskRead(log, t, prices)
    ensures TaskRead(log + [q], t, prices)
  {
    match t
    case Holding(e, base, since) => ReadEarlier(log, EventPut(e, base, since), q, prices);
    case CheckingOut(user, r, since) => ReadEarlier(log, Put(user.accountId, ByCheckout(user, ""), r, since), q, prices);
    case _ =>
  }

  lemma LogGrows(log: seq<Put>, p: Put, prices: Prices)
    requires LogOk(log, prices) && PutOk(log, p, prices)
    ensures LogOk(log + [p], prices)
  {
    forall i | 0 <= i < |log + [p]| ensures PutOk((log + [p])[..i], (log + [p])[i], prices) {
      assert (log + [p])[..i] == log[..i];
      assert log[..|log|] == log;
    }
  }

  lemma PutKeepsRecords(s: State, p: Put, prices: Prices)
    requires Records(s, prices) && p.base.accountId == p.account
    ensures Records(PutLogged(s, p, prices), prices)
  {
    var s' := PutLogged(s, p, prices);
    assert s'.log[..|s.log|] == s.log;
  }

  lemma PutKeepsLogged(s: State, p: Put, prices: Prices)
    requires Logged(s, prices) && PutOk(s.log, p, prices)
    ensures Logged(PutLogged(s, p, prices), prices)
  {
    PutKeepsRecords(s, p, prices);
    LogGrows(s.log, p, prices);
    forall t | t in s.tasks ensures TaskRead(s.log + [p], s.tasks[t], prices) {
      TaskReadEarlier(s.log, s.tasks[t], p, prices);
    }
  }

  /** Steps that write no record. */
  lemma SameLogged(s: State, s': State, prices: Prices)
    requires Logged(s, prices) && s'.store.records == s.store.records && s'.log == s.log
    requires forall t :: t in s'.tasks ==> (t in s.tasks && s'.tasks[t] == s.tasks[t]) || TaskRead(s.log, s'.tasks[t], prices)
    ensures Logged(s', prices)
  {}

  lemma ReadKeepsLogged(s: State, t: nat, found: Option<string>, prices: Prices)
    requires Logged(s, prices) && ReadStep(s, t, found).Some?
    ensures Logged(ReadStep(s, t, found).value, prices)
  {
    assert s.log[..|s.log|] == s.log;
    SameLogged(s, ReadStep(s, t, found).value, prices);
  }

  lemma CheckoutKeepsLogged(s: State, t: nat, user: User, prices: Prices)
    requires Logged(s, prices) && BeginCheckoutStep(s, t, user).Some?
    ensures Logged(BeginCheckoutStep(s, t, user).value, prices)
  {
    assert s.log[..|s.log|] == s.log;
    SameLogged(s, BeginCheckoutStep(s, t, user).value, prices);
  }

  lemma EventWriteKeepsLogged(s: State, t: nat, prices: Prices)
    requires Logged(s, prices) && t in s.tasks && s.tasks[t].Holding?
    ensures Logged(PutLogged(s, EventPut(s.tasks[t].event, s.tasks[t].base, s.tasks[t].since), prices), prices)
  {
    assert TaskRead(s.log, s.tasks[t], prices);
    PutKeepsLogged(s, EventPut(s.tasks[t].event, s.tasks[t].base, s.tasks[t].since), prices);
  }

  lemma WriteKeepsLogged(s: State, t: nat, prices: Prices)
    requires Logged(s, prices) && WriteStep(s, t, prices).Some?
    ensures Logged(WriteStep(s, t, prices).value, prices)
  {
    var put := PutLogged(s, EventPut(s.tasks[t].event, s.tasks[t].base, s.tasks[t].since), prices);
    EventWriteKeepsLogged(s, t, prices);
    SameLogged(put, WriteStep(s, t, prices).value, prices);
  }

  lemma FailKeepsLogged(s: State, t: nat, written: bool, prices: Prices)
    requires Logged(s, prices) && FailStep(s, t, written, prices).Some?
    ensures Logged(FailStep(s, t, written, prices).value, prices)
  {
    if written && s.tasks[t].Holding? {
      var put := PutLogged(s, EventPut(s.tasks[t].event, s.tasks[t].base, s.tasks[t].since), prices);
      EventWriteKeepsLogged(s, t, prices);
      SameLogged(put, FailStep(s, t, written, prices).value, prices);
    } else {
      SameLogged(s, FailStep(s, t, written, prices).value, prices);
    }
  }

  lemma SaveKeepsLogged(s: State, t: nat, customer: string, prices: Prices)
    requires Logged(s, prices) && SaveCustomerStep(s, t, customer, prices).Some?
    ensures Logged(SaveCustomerStep(s, t, customer, prices).value, prices)
  {
    var c := s.tasks[t];
    assert TaskRead(s.log, c, prices);
    var p := Put(c.record.accountId, ByCheckout(c.user, customer), c.record, c.since);
    PutKeepsLogged(s, p, prices);
    SameLogged(PutLogged(s, p, prices), SaveCustomerStep(s, t, customer, prices).value, prices);
  }

  predicate TouchesRecords(e: Event) { e.Read? || e.BeginCheckout? || e.Write? || e.Fail? || e.SaveCustomer? }

  lemma StepKeepsLogged(s: State, e: Event, prices: Prices)
    requires Logged(s, prices) && Step(s, e, prices).Some?
    ensures Logged(Step(s, e, prices).value, prices)
  {
    if TouchesRecords(e) {
      RecordStepKeepsLogged(s, e, prices);
    } else {
      OtherStep(s, e, prices);
      SameLogged(s, Step(s, e, prices).value, prices);
    }
  }

  lemma RecordStepKeepsLogged(s: State, e: Event, prices: Prices)
    requires Logged(s, prices) && Step(s, e, prices).Some? && TouchesRecords(e)
    ensures Logged(Step(s, e, prices).value, prices)
  {
    match e
    case Read(t, found) => ReadKeepsLogged(s, t, found, prices);
    case BeginCheckout(t, user) => CheckoutKeepsLogged(s, t, user, prices);
    case Write(t) => WriteKeepsLogged(s, t, prices);
    case Fail(t, written) => FailKeepsLogged(s, t, written, prices);
    case SaveCustomer(t, customer) => SaveKeepsLogged(s, t, customer, prices);
  }

  lemma OtherStep(s: State, e: Event, prices: Prices)
    requires Step(s, e, prices).Some? && !TouchesRecords(e)
    ensures var s' := Step(s, e, prices).value;
            && s'.store.records == s.store.records && s'.log == s.log
            && (forall t :: t in s'.tasks && !(t in s.tasks && s'.tasks[t] == s.tasks[t]) ==>
                  !s'.tasks[t].Holding? && !s'.tasks[t].CheckingOut?)
  {}

  lemma {:induction false} RunKeepsLogged(events: seq<Event>, prices: Prices)
    requires Run(Initial(), events, prices).Some?
    ensures Logged(Run(Initial(), events, prices).value, prices)
    decreases |events|
  {
    if events != [] {
      RunKeepsLogged(events[..|events| - 1], prices);
      StepKeepsLogged(Run(Initial(), events[..|events| - 1], prices).value, events[|events| - 1], prices);
    }
  }

  /** The account's writes, in order. */
  function WritesOf(log: seq<Put>, account: string): seq<Put> {
    if log == [] then []
    else
      var last := log[|log| - 1];
      WritesOf(log[..|log| - 1], account) + if last.account == account then [last] else []
  }

  /** The writes that the account's record reflects: the last one, and those reflected in what
      it read. */
  function Reflected(log: seq<Put>, account: string): seq<Put> {
    if log == [] then []
    else
      var n := |log| - 1;
      if log[n].account != account then Reflected(log[..n], account)
      else Reflected(log[..if log[n].since < n then log[n].since else n], account) + [log[n]]
  }

  /** The writes one after the other, each made of what the one before left. */
  function Fold(puts: seq<Put>, prices: Prices): Option<BillingRecord> {
    if puts == [] then None
    else
      var last := puts[|puts| - 1];
      Some(Effect(Fold(puts[..|puts| - 1], prices).GetOr(Start(last.by_, last.account)), last.by_, prices))
  }

  /** No write of the account's record from `from` to `to`. */
  ghost predicate Unwritten(log: seq<Put>, account: string, from: nat, to: nat) {
    forall j :: from <= j < to && j < |log| ==> log[j].account != account
  }

  /** No other write of the account's record falls between a write and its read. */
  ghost predicate AllTimely(log: seq<Put>, account: string) {
    forall i :: 0 <= i < |log| && log[i].account == account ==> Unwritten(log, account, log[i].since, i)
  }

  lemma LogOkBefore(log: seq<Put>, n: nat, prices: Prices)
    requires LogOk(log, prices) && n <= |log|
    ensures LogOk(log[..n], prices)
  {
    forall i | 0 <= i < n ensures PutOk(log[..n][..i], log[..n][i], prices) {
      assert log[..n][..i] == log[..i];
    }
  }

  lemma FoldMore(puts: seq<Put>, p: Put, prices: Prices)
    ensures Fold(puts + [p], prices) == Some(Effect(Fold(puts, prices).GetOr(Start(p.by_, p.account)), p.by_, prices))
  {
    assert (puts + [p])[..|puts|] == puts;
  }

  lemma ReadLast(log: seq<Put>, prices: Prices)
    requires LogOk(log, prices) && log != []
    ensures var last := log[|log| - 1];
            && last.since < |log|
            && last.base == Current(log[..last.since], last.account, prices).GetOr(Start(last.by_, last.account))
  {
    var n := |log| - 1;
    assert PutOk(log[..n], log[n], prices);
    assert log[..n][..log[n].since] == log[..log[n].since];
  }

  lemma ReflectedLast(log: seq<Put>, account: string)
    requires log != [] && log[|log| - 1].since < |log|
    ensures var last := log[|log| - 1];
            Reflected(log, account)
            == if last.account == account then Reflected(log[..last.since], account) + [last] else Reflected(log[..|log| - 1], account)
  {}

  lemma CurrentLast(log: seq<Put>, account: string, since: nat, prices: Prices)
    requires LogOk(log, prices) && log != [] && log[|log| - 1].account == account && since == log[|log| - 1].since
    ensures since < |log| && var last := log[|log| - 1];
            Current(log, account, prices)
            == Some(Effect(Current(log[..since], account, prices).GetOr(Start(last.by_, account)), last.by_, prices))
  {
    ReadLast(log, prices);
  }

  lemma {:induction false} CurrentIsFold(log: seq<Put>, account: string, prices: Prices)
    requires LogOk(log, prices)
    ensures Current(log, account, prices) == Fold(Reflected(log, account), prices)
    decreases |log|
  {
    if log != [] {
      var n := |log| - 1;
      ReadLast(log, prices);
      ReflectedLast(log, account);
      if log[n].account != account {
        LogOkBefore(log, n, prices);
        CurrentIsFold(log[..n], account, prices);
      } else {
        var since := log[n].since;
        CurrentLast(log, account, since, prices);
        LogOkBefore(log, since, prices);
        CurrentIsFold(log[..since], account, prices);
        FoldMore(Reflected(log[..since], account), log[n], prices);
      }
    }
  }

  lemma {:induction false} WritesBetween(log: seq<Put>, account: string, n: nat)
    requires n <= |log|
    ensures |WritesOf(log[..n], account)| <= |WritesOf(log, account)|
    ensures Unwritten(log, account, n, |log|) ==> WritesOf(log[..n], account) == WritesOf(log, account)
    ensures !Unwritten(log, account, n, |log|) ==> |WritesOf(log[..n], account)| < |WritesOf(log, account)|
    decreases |log|
  {
    if n == |log| {
      assert log[..n] == log;
    } else {
      var m := |log| - 1;
      assert log[..m][..n] == log[..n];
      WritesBetween(log[..m], account, n);
      assert Unwritten(log, account, n, |log|) <==> Unwritten(log[..m], account, n, m) && log[m].account != account;
    }
  }

  lemma TimelyBefore(log: seq<Put>, account: string, n: nat)
    requires n <= |log|
    ensures AllTimely(log, account) ==> AllTimely(log[..n], account)
    ensures AllTimely(log[..n], account) && Unwritten(log, account, n, |log|) ==> AllTimely(log, account)
  {
    if AllTimely(log[..n], account) && Unwritten(log, account, n, |log|) {
      forall i | 0 <= i < |log| && log[i].account == account ensures Unwritten(log, account, log[i].since, i) {
        assert i < n && log[..n][i] == log[i];
        assert Unwritten(log[..n], account, log[i].since, i);
        assert forall j :: log[i].since <= j < i ==> log[..n][j] == log[j];
      }
    }
  }

  lemma TimelyLast(log: seq<Put>, account: string)
    requires log != [] && log[|log| - 1].account == account && log[|log| - 1].since <= |log| - 1
    ensures var n := |log| - 1; var since := log[n].since;
            AllTimely(log, account) <==> AllTimely(log[..since], account) && Unwritten(log[..n], account, since, n)
  {
    var n := |log| - 1;
    var since := log[n].since;
    TimelyBefore(log, account, n);
    TimelyBefore(log[..n], account, since);
    assert log[..n][..since] == log[..since];
    assert Unwritten(log[..n], account, since, n) <==> Unwritten(log, account, since, n);
    if AllTimely(log[..n], account) && Unwritten(log, account, since, n) {
      forall i | 0 <= i < |log| && log[i].account == account ensures Unwritten(log, account, log[i].since, i) {
        if i < n {
          assert log[..n][i] == log[i] && Unwritten(log[..n], account, log[i].since, i);
          assert forall j :: log[i].since <= j < i ==> log[..n][j] == log[j];
        }
      }
    }
  }

  /** A record reflects all its writes exactly when none of them fell between the read and the
      write of another. */
  lemma {:induction false} ReflectsAllIff(log: seq<Put>, account: string)
    requires forall i :: 0 <= i < |log| ==> log[i].since <= i
    ensures |Reflected(log, account)| <= |WritesOf(log, account)|
    ensures Reflected(log, account) == WritesOf(log, account) <==> AllTimely(log, account)
    ensures !AllTimely(log, account) ==> |Reflected(log, account)| < |WritesOf(log, account)|
    decreases |log|
  {
    if log != [] {
      var n := |log| - 1;
      if log[n].account != account {
        ReflectsAllIff(log[..n], account);
        TimelyBefore(log, account, n);
      } else {
        var since := log[n].since;
        ReflectsAllIff(log[..since], account);
        WritesBetween(log[..n], account, since);
        assert log[..n][..since] == log[..since];
        TimelyLast(log, account);
      }
    }
  }

  /** In every run the stored record is the fold of the writes it reflects, and it reflects all
      the writes of its account exactly when no other write of the record falls between the
      read and the write of one. */
  lemma RecordIsFold(events: seq<Event>, prices: Prices, account: string)
    requires Run(Initial(), events, prices).Some?
    ensures var s := Run(Initial(), events, prices).value;
            && Fold(Reflected(s.log, account), prices)
               == (if account in s.store.records then Some(s.store.records[account]) else None)
            && (Reflected(s.log, account) == WritesOf(s.log, account) <==> AllTimely(s.log, account))
  {
    RunKeepsLogged(events, prices);
    var s := Run(Initial(), events, prices).value;
    CurrentIsFold(s.log, account, prices);
    forall i | 0 <= i < |s.log| ensures s.log[i].since <= i {
      assert PutOk(s.log[..i], s.log[i], prices);
    }
    ReflectsAllIff(s.log, account);
  }

  /** The fields of a record that a write hands on. */
  predicate CarriesSame(by_: Writer, a: BillingRecord, b: BillingRecord, prices: Prices) {
    match by_
    case ByCheckout(_, _) => a.(customer := None) == b.(customer := None)
    case ByEvent(e) =>
      && a.accountId == b.accountId && a.email == b.email
      && (CustomerOf(e.object_).None? ==> a.customer == b.customer)
      && (SubscriptionOf(e.object_).None? ==> a.subscription == b.subscription)
      && (StatusOf(e).Entitling() && PlanNamed(e.object_, prices).None? ==> a.plan == b.plan)
      && (e.object_.periodEnd.None? ==> a.periodEnd == b.periodEnd)
  }

  lemma SameEffectIff(by_: Writer, a: BillingRecord, b: BillingRecord, prices: Prices)
    ensures Effect(a, by_, prices) == Effect(b, by_, prices) <==> CarriesSame(by_, a, b, prices)
  {}

  /** After a write the record is what the writes make of it one after the other exactly when
      the write read, in the fields it hands on, what the writes before it make. */
  lemma WriteOrderIff(events: seq<Event>, prices: Prices, account: string)
    requires Run(Initial(), events, prices).Some?
    requires var log := Run(Initial(), events, prices).value.log; log != [] && log[|log| - 1].account == account
    ensures var s := Run(Initial(), events, prices).value;
            var last := s.log[|s.log| - 1];
            var before := Fold(WritesOf(s.log[..|s.log| - 1], account), prices).GetOr(Start(last.by_, account));
            && account in s.store.records
            && (Some(s.store.records[account]) == Fold(WritesOf(s.log, account), prices)
                <==> CarriesSame(last.by_, last.base, before, prices))
  {
    RunKeepsLogged(events, prices);
    var s := Run(Initial(), events, prices).value;
    var n := |s.log| - 1;
    var last := s.log[n];
    assert Current(s.log, account, prices) == Some(Effect(last.base, last.by_, prices));
    assert WritesOf(s.log, account)[..|WritesOf(s.log, account)| - 1] == WritesOf(s.log[..n], account);
    SameEffectIff(last.by_, last.base, Fold(WritesOf(s.log[..n], account), prices).GetOr(Start(last.by_, account)), prices);
  }

  // ----- checkouts and racing deliveries -----

  /** What an account pays for. */
  datatype Terms = Terms(plan: Plan, status: Status, subscription: Option<string>, periodEnd: Option<string>)

  function TermsOf(r: Option<BillingRecord>): Terms {
    match r
    case None => Terms(Free, NoStatus, None, None)
    case Some(r) => Terms(r.plan, r.status, r.subscription, r.periodEnd)
  }

  /** In every run, a checkout that saves its customer puts back the terms it read. They are
      the terms as they stand exactly when no write of the account's record came between, or
      the last that did left those terms; and the record then reflects none of the writes that
      came between. */
  lemma CheckoutLeavesTermsIff(events: seq<Event>, prices: Prices, t: nat, customer: string)
    requires Run(Initial(), events, prices).Some?
    requires var s := Run(Initial(), events, prices).value; t in s.tasks && s.tasks[t].CheckingOut?
    ensures var s := Run(Initial(), events, prices).value;
            var c, account := s.tasks[t], s.tasks[t].user.accountId;
            var saved := SaveCustomerStep(s, t, customer, prices).value;
            var stood := TermsOf(if account in s.store.records then Some(s.store.records[account]) else None);
            && c.since <= |s.log| && account in saved.store.records
            && TermsOf(Some(saved.store.records[account])) == TermsOf(Some(c.record))
            && (TermsOf(Some(saved.store.records[account])) == stood
                <==> Unwritten(s.log, account, c.since, |s.log|)
                     || TermsOf(Current(s.log[c.since..], account, prices)) == TermsOf(Some(c.record)))
            && Reflected(saved.log, account) == Reflected(s.log[..c.since], account) + [saved.log[|s.log|]]
  {
    RunKeepsLogged(events, prices);
    var s := Run(Initial(), events, prices).value;
    var c := s.tasks[t];
    assert TaskRead(s.log, c, prices);
    CurrentSince(s.log, c.user.accountId, c.since, prices);
    var saved := SaveCustomerStep(s, t, customer, prices).value;
    assert saved.log[..|s.log|] == s.log && saved.log[..c.since] == s.log[..c.since];
  }

  lemma {:induction false} CurrentSince(log: seq<Put>, account: string, since: nat, prices: Prices)
    requires since <= |log|
    ensures Current(log, account, prices)
            == if Unwritten(log, account, since, |log|) then Current(log[..since], account, prices)
               else Current(log[since..], account, prices)
    ensures !Unwritten(log, account, since, |log|) ==> Current(log[since..], account, prices).Some?
    decreases |log|
  {
    if since == |log| {
      assert log[..since] == log;
    } else {
      var n := |log| - 1;
      CurrentSince(log[..n], account, since, prices);
      assert log[..n][..since] == log[..since] && log[..n][since..] == log[since..][..n - since];
      assert Unwritten(log, account, since, |log|) <==> Unwritten(log[..n], account, since, n) && log[n].account != account;
    }
  }

  /** Two deliveries for one account that both read before either writes: both count as
      applied, and the record is what the second makes of what it read. That is what the two
      make of it in turn exactly when the second hands on nothing that the first changed. */
  lemma RacingDeliveries(s: State, t: nat, u: nat, prices: Prices)
    requires t != u && t in s.tasks && u in s.tasks && s.tasks[t].Holding? && s.tasks[u].Holding?
    requires s.tasks[t].base.accountId == s.tasks[u].base.accountId
    ensures var first, second := s.tasks[t], s.tasks[u];
            var end := WriteStep(WriteStep(s, t, prices).value, u, prices).value;
            var inTurn := Updated(Updated(first.base, first.event, prices), second.event, prices);
            && end.applied == s.applied + [first.event.id, second.event.id]
            && end.store.records == s.store.records[second.base.accountId := Updated(second.base, second.event, prices)]
            && (end.store.records[second.base.accountId] == inTurn
                <==> CarriesSame(ByEvent(second.event), second.base, Updated(first.base, first.event, prices), prices))
  {
    var first, second := s.tasks[t], s.tasks[u];
    SameEffectIff(ByEvent(second.event), second.base, Updated(first.base, first.event, prices), prices);
    var written := WriteStep(s, t, prices).value;
    assert u in written.tasks && written.tasks[u] == second;
  }

  /** So a paid plan is lost although both events count as applied, when the first names the
      plan and the second names none. */
  lemma RacingDeliveryLosesPlan(prices: Prices, account: string, first: StripeEvent, second: StripeEvent)
    requires IsHandled(first.kind) && IsHandled(second.kind) && first.id != second.id
    requires AccountOf(first.object_) == Some(account) && AccountOf(second.object_) == Some(account)
    requires StatusOf(first).Entitling() && PlanNamed(first.object_, prices).Some? && PlanNamed(first.object_, prices).value != Free
    requires StatusOf(second).Entitling() && PlanNamed(second.object_, prices).None?
    ensures var claimed := DeliverStep(DeliverStep(Initial(), 0, first).value, 1, second).value;
            var read := ReadStep(ReadStep(claimed, 0, None).value, 1, None).value;
            var one := WriteStep(read, 0, prices).value;
            var end := WriteStep(one, 1, prices).value;
            && end.applied == [first.id, second.id]
            && one.store.records[account].plan != Free && end.store.records[account].plan == Free
  {
    var claimed := DeliverStep(DeliverStep(Initial(), 0, first).value, 1, second).value;
    var read := ReadStep(ReadStep(claimed, 0, None).value, 1, None).value;
    assert read.tasks[0].Holding? && read.tasks[1].Holding?;
    assert read.tasks[1].base.plan == Free;
    RacingDeliveries(read, 0, 1, prices);
  }

  /** And a checkout that read the record before an event was applied writes its snapshot back
      over the event's plan. */
  lemma CheckoutCanUndoAnEvent(prices: Prices, account: string, e: StripeEvent)
    requires IsHandled(e.kind) && AccountOf(e.object_) == Some(account)
    requires StatusOf(e).Entitling() && PlanNamed(e.object_, prices).Some? && PlanNamed(e.object_, prices).value != Free
    ensures var begun := BeginCheckoutStep(Initial(), 0, User(account, None)).value;
            var read := ReadStep(DeliverStep(begun, 1, e).value, 1, None).value;
            var applied := WriteStep(read, 1, prices).value;
            var end := SaveCustomerStep(applied, 0, "customer", prices).value;
            && applied.applied == [e.id] && end.applied == [e.id]
            && applied.store.records[account].plan != Free && end.store.records[account].plan == Free
  {}
}
