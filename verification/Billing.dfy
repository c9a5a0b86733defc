/** Stripe billing (`billing.rs`): stored subscription records, admin plan overrides, grants
    by email, the claimed Stripe event ids, and the plan an account resolves to. Times are
    integers; the service works on its in-memory store. */
module Billing {
  import opened Prelude
  import Text
  import TeamStore

  datatype Plan = Free | Growth | Scale

  datatype Status = NoStatus | Trialing | Active | PastDue | Canceled {
    predicate Entitling() { Trialing? || Active? || PastDue? }
  }

  datatype BillingRecord = BillingRecord(
    accountId: string,
    email: Option<string>,
    customer: Option<string>,
    subscription: Option<string>,
    plan: Plan,
    status: Status,
    periodEnd: Option<string>
  )

  /** An expiry text that does not parse never takes effect. */
  datatype Expiry = NoExpiry | Unreadable(text: string) | At(time: int)

  datatype PlanOverride = PlanOverride(plan: Plan, expiry: Expiry, note: Option<string>)

  datatype Store = Store(
    records: map<string, BillingRecord>,
    overrides: map<string, PlanOverride>,
    grants: map<string, PlanOverride>,
    seen: set<string>
  )

  /** The two configured Stripe price ids. */
  datatype Prices = Prices(growth: string, scale: string)

  /** A JSON value as far as the service looks at it. */
  datatype Json = JText(text: string) | NotText

  /** The members of a Stripe object that the service reads. `periodEnd` is present when the
      payload has an integer there, and holds its RFC 3339 text if the time is in range. */
  datatype StripeObject = StripeObject(
    kind: Option<Json>,
    id: Option<Json>,
    customer: Option<Json>,
    subscription: Option<Json>,
    clientReferenceId: Option<Json>,
    metadataAccountId: Option<Json>,
    metadataPlan: Option<Json>,
    status: Option<Json>,
    paymentStatus: Option<Json>,
    periodEnd: Option<Option<string>>,
    itemPrice: Option<Json>,
    displayItemPrice: Option<Json>,
    lineItemPrice: Option<Json>
  )

  datatype StripeEvent = StripeEvent(id: string, kind: string, object_: StripeObject)

  // ----- reading an event -----

  function TextOf(v: Option<Json>): Option<string> {
    if v.Some? && v.value.JText? then Some(v.value.text) else None
  }

  function OrElse<T>(a: Option<T>, b: Option<T>): Option<T> { if a.Some? then a else b }

  predicate IsHandled(kind: string) {
    || kind == "checkout.session.completed" || kind == "customer.subscription.created"
    || kind == "customer.subscription.updated" || kind == "customer.subscription.deleted"
  }

  function SubscriptionStatus(status: Option<string>): Status {
    if status == Some("trialing") then Trialing
    else if status == Some("active") then Active
    else if status == Some("past_due") then PastDue
    else if status == Some("canceled") || status == Some("unpaid") || status == Some("incomplete_expired") then Canceled
    else NoStatus
  }

  function CheckoutSessionStatus(o: StripeObject): Status {
    if TextOf(o.paymentStatus) == Some("paid") || TextOf(o.paymentStatus) == Some("no_payment_required") then Active
    else NoStatus
  }

  /** A client reference that is present but is no text hides the metadata's account. */
  function AccountOf(o: StripeObject): Option<string> {
    TextOf(OrElse(o.clientReferenceId, o.metadataAccountId))
  }

  function CustomerOf(o: StripeObject): Option<string> { TextOf(o.customer) }

  predicate IsSubscription(o: StripeObject) { TextOf(o.kind) == Some("subscription") }

  function SubscriptionOf(o: StripeObject): Option<string> {
    if IsSubscription(o) then TextOf(o.id) else TextOf(o.subscription)
  }

  function PriceOf(o: StripeObject): Option<string> {
    TextOf(OrElse(OrElse(o.itemPrice, o.displayItemPrice), o.lineItemPrice))
  }

  function StatusOf(e: StripeEvent): Status {
    if e.kind == "customer.subscription.deleted" then Canceled
    else if IsSubscription(e.object_) then SubscriptionStatus(TextOf(e.object_.status))
    else CheckoutSessionStatus(e.object_)
  }

  /** The plan a payload names, if it names one the service knows. */
  function PlanNamed(o: StripeObject, prices: Prices): Option<Plan> {
    match PriceOf(o)
    case Some(price) =>
      if price == prices.scale then Some(Scale) else if price == prices.growth then Some(Growth) else None
    case None =>
      if TextOf(o.metadataPlan) == Some("scale") then Some(Scale)
      else if TextOf(o.metadataPlan) == Some("growth") then Some(Growth)
      else None
  }

  function NewRecord(account: string, email: Option<string>): BillingRecord {
    BillingRecord(account, email, None, None, Free, NoStatus, None)
  }

  /** What an event makes of the record it found. */
  function Updated(r: BillingRecord, e: StripeEvent, prices: Prices): BillingRecord {
    var o := e.object_;
    var status := StatusOf(e);
    BillingRecord(
      r.accountId,
      r.email,
      OrElse(CustomerOf(o), r.customer),
      OrElse(SubscriptionOf(o), r.subscription),
      if status.Canceled? || status.NoStatus? then Free else PlanNamed(o, prices).GetOr(r.plan),
      status,
      o.periodEnd.GetOr(r.periodEnd))
  }

  // ----- applying an event -----

  predicate HasCustomer(records: map<string, BillingRecord>, account: string, customer: string) {
    account in records && records[account].customer == Some(customer)
  }

  /** The search by customer returns any one record that carries the customer id. */
  ghost predicate FoundByCustomer(records: map<string, BillingRecord>, customer: string, found: Option<string>) {
    match found
    case Some(account) => HasCustomer(records, account, customer)
    case None => forall a :: !HasCustomer(records, a, customer)
  }

  /** What the search has to come to when an event names a customer but no account. */
  ghost predicate Finds(records: map<string, BillingRecord>, e: StripeEvent, found: Option<string>) {
    AccountOf(e.object_).None? && CustomerOf(e.object_).Some? ==>
      FoundByCustomer(records, CustomerOf(e.object_).value, found)
  }

  /** The record an event is about; None when the event is ignored. */
  function RecordFor(s: Store, e: StripeEvent, found: Option<string>): Option<BillingRecord> {
    var o := e.object_;
    match AccountOf(o)
    case Some(account) =>
      Some(if account in s.records then s.records[account]
           else NewRecord(account, None).(customer := CustomerOf(o), subscription := SubscriptionOf(o)))
    case None =>
      if CustomerOf(o).Some? && found.Some? && found.value in s.records then Some(s.records[found.value]) else None
  }

  function PutRecord(s: Store, r: BillingRecord): Store { s.(records := s.records[r.accountId := r]) }

  function ApplyEvent(s: Store, e: StripeEvent, prices: Prices, found: Option<string>): Store {
    match RecordFor(s, e, found)
    case Some(r) => PutRecord(s, Updated(r, e, prices))
    case None => s
  }

  // ----- grants and overrides -----

  predicate GrantIsActive(g: PlanOverride, now: int) { g.expiry.At? ==> g.expiry.time > now }

  function SetOverride(s: Store, account: string, plan: Plan, expiry: Expiry, note: Option<string>): Store {
    if plan.Free? then s.(overrides := s.overrides - {account})
    else s.(overrides := s.overrides[account := PlanOverride(plan, expiry, note)])
  }

  function GrantTo(s: Store, email: string, expiry: Expiry, account: Option<string>): Result<Store, string> {
    match TeamStore.NormalizeEmail(email)
    case None => Err("invalid email")
    case Some(key) =>
      var granted := s.(grants := s.grants[key := PlanOverride(Scale, expiry, Some(key))]);
      Ok(if account.Some? then SetOverride(granted, account.value, Scale, expiry, Some(email)) else granted)
  }

  function RevokeFrom(s: Store, email: string, account: Option<string>): Result<Store, string> {
    match TeamStore.NormalizeEmail(email)
    case None => Err("invalid email")
    case Some(key) =>
      var revoked := s.(grants := s.grants - {key});
      Ok(if account.Some? then SetOverride(revoked, account.value, Free, NoExpiry, None) else revoked)
  }

  // ----- the plan an account resolves to -----

  datatype User = User(accountId: string, email: Option<string>)

  datatype Source = FromStripe | FromAdmin | FromFree

  datatype AccountStatus = AccountStatus(
    plan: Plan,
    status: Status,
    source: Source,
    adminExpiry: Option<Expiry>,
    provisioned: bool,
    isOperator: bool
  )

  function OverrideOf(s: Store, account: string): Option<PlanOverride> {
    if account in s.overrides then Some(s.overrides[account]) else None
  }

  function RecordOf(s: Store, user: User): BillingRecord {
    if user.accountId in s.records then s.records[user.accountId] else NewRecord(user.accountId, user.email)
  }

  predicate EndsWith(s: string, suffix: string) {
    |suffix| <= |s| && s[|s| - |suffix|..] == suffix
  }

  predicate IsOperatorEmail(email: Option<string>) {
    email.Some? && EndsWith(Text.Lower(Text.Trim(email.value)), "@prokuro.ai")
  }

  predicate IsActive(g: Option<PlanOverride>, now: int) { g.Some? && GrantIsActive(g.value, now) }

  function StatusFromRecord(r: BillingRecord, override_: Option<PlanOverride>, isOperator: bool, now: int): AccountStatus {
    var active := IsActive(override_, now);
    if isOperator then AccountStatus(Scale, Active, FromAdmin, None, true, true)
    else if active then AccountStatus(override_.value.plan, Active, FromAdmin, Some(override_.value.expiry), true, false)
    else if r.plan != Free && r.status.Entitling() then AccountStatus(r.plan, r.status, FromStripe, None, true, false)
    else AccountStatus(Free, if r.status.Canceled? then Canceled else NoStatus, FromFree, None, false, false)
  }

  /** Without an active override, an active grant for the user's email is copied into one. */
  function ResolveStatus(s: Store, user: User, now: int): (Store, Result<AccountStatus, string>) {
    var own := OverrideOf(s, user.accountId);
    var operator_ := IsOperatorEmail(user.email);
    if IsActive(own, now) || user.email.None? then
      (s, Ok(StatusFromRecord(RecordOf(s, user), own, operator_, now)))
    else
      match TeamStore.NormalizeEmail(user.email.value)
      case None => (s, Err("invalid email"))
      case Some(key) =>
        if key in s.grants && GrantIsActive(s.grants[key], now) then
          var grant := s.grants[key];
          (SetOverride(s, user.accountId, grant.plan, grant.expiry, user.email),
           Ok(StatusFromRecord(RecordOf(s, user), Some(grant), operator_, now)))
        else (s, Ok(StatusFromRecord(RecordOf(s, user), own, operator_, now)))
  }

  // ----- the service -----

  class Service {
    const prices: Prices
    var records: map<string, BillingRecord>
    var overrides: map<string, PlanOverride>
    var grants: map<string, PlanOverride>
    var seen: set<string>

    constructor (prices: Prices)
      ensures State() == Store(map[], map[], map[], {}) && this.prices == prices
    {
      this.prices := prices;
      records, overrides, grants, seen := map[], map[], map[], {};
    }

    function State(): Store
      reads this
    {
      Store(records, overrides, grants, seen)
    }

    method ClearAdminPlan(account: string)
      modifies this`overrides
      ensures State() == SetOverride(old(State()), account, Free, NoExpiry, None)
    {
      overrides := overrides - {account};
    }

    method SetAdminPlan(account: string, plan: Plan, expiry: Expiry, note: Option<string>)
      modifies this`overrides
      ensures State() == SetOverride(old(State()), account, plan, expiry, note)
    {
      if plan == Free {
        ClearAdminPlan(account);
        return;
      }
      overrides := overrides[account := PlanOverride(plan, expiry, note)];
    }

    method GrantEmail(email: string, expiry: Expiry, account: Option<string>) returns (ok: bool)
      modifies this`overrides, this`grants
      ensures ok <==> GrantTo(old(State()), email, expiry, account).Ok?
      ensures State() == if ok then GrantTo(old(State()), email, expiry, account).value else old(State())
    {
      var key := TeamStore.NormalizeEmail(email);
      if key.None? {
        return false;
      }
      grants := grants[key.value := PlanOverride(Scale, expiry, key)];
      if account.Some? {
        SetAdminPlan(account.value, Scale, expiry, Some(email));
      }
      ok := true;
    }

    method RevokeEmail(email: string, account: Option<string>) returns (ok: bool)
      modifies this`overrides, this`grants
      ensures ok <==> RevokeFrom(old(State()), email, account).Ok?
      ensures State() == if ok then RevokeFrom(old(State()), email, account).value else old(State())
    {
      var key := TeamStore.NormalizeEmail(email);
      if key.None? {
        return false;
      }
      grants := grants - {key.value};
      if account.Some? {
        ClearAdminPlan(account.value);
      }
      ok := true;
    }

    method StatusFor(user: User, now: int) returns (r: Result<AccountStatus, string>)
      modifies this`overrides
      ensures (State(), r) == ResolveStatus(old(State()), user, now)
    {
      var record := RecordOf(State(), user);
      var plan := OverrideOf(State(), user.accountId);
      if !IsActive(plan, now) && user.email.Some? {
        var key := TeamStore.NormalizeEmail(user.email.value);
        if key.None? {
          return Err("invalid email");
        }
        if key.value in grants && GrantIsActive(grants[key.value], now) {
          var grant := grants[key.value];
          SetAdminPlan(user.accountId, grant.plan, grant.expiry, user.email);
          plan := Some(grant);
        }
      }
      r := Ok(StatusFromRecord(record, plan, IsOperatorEmail(user.email), now));
    }

    method ClaimEvent(id: string) returns (claimed: bool)
      modifies this`seen
      ensures claimed <==> id !in old(seen)
      ensures seen == old(seen) + {id}
    {
      claimed := id !in seen;
      seen := seen + {id};
    }

    method FindByCustomer(customer: string) returns (found: Option<string>)
      ensures FoundByCustomer(records, customer, found)
    {
      if a :| a in records && records[a].customer == Some(customer) {
        assert HasCustomer(records, a, customer);
        found := Some(a);
      } else {
        found := None;
      }
    }

    method LoadRecord(e: StripeEvent) returns (record: Option<BillingRecord>, ghost found: Option<string>)
      ensures Finds(records, e, found) && record == RecordFor(State(), e, found)
    {
      var account, customer := AccountOf(e.object_), CustomerOf(e.object_);
      found := None;
      if account.Some? {
        if account.value in records {
          return Some(records[account.value]), None;
        }
        var subscription := SubscriptionOf(e.object_);
        return Some(BillingRecord(account.value, None, customer, subscription, Free, NoStatus, None)), None;
      }
      if customer.Some? {
        var owner := FindByCustomer(customer.value);
        if owner.Some? {
          return Some(records[owner.value]), owner;
        }
      }
      record := None;
    }

    /** Updates the record field by field, as the original does. */
    method UpdateRecord(start: BillingRecord, e: StripeEvent) returns (record: BillingRecord)
      ensures record == Updated(start, e, prices)
    {
      var o := e.object_;
      record := start;
      if CustomerOf(o).Some? {
        record := record.(customer := CustomerOf(o));
      }
      if SubscriptionOf(o).Some? {
        record := record.(subscription := SubscriptionOf(o));
      }
      if e.kind == "customer.subscription.deleted" {
        record := record.(status := Canceled);
      } else if IsSubscription(o) {
        record := record.(status := SubscriptionStatus(TextOf(o.status)));
      } else {
        record := record.(status := CheckoutSessionStatus(o));
      }
      if o.periodEnd.Some? {
        record := record.(periodEnd := o.periodEnd.value);
      }
      var price := PriceOf(o);
      if price.Some? {
        if price.value == prices.scale {
          record := record.(plan := Scale);
        } else if price.value == prices.growth {
          record := record.(plan := Growth);
        }
      } else if TextOf(o.metadataPlan) == Some("scale") {
        record := record.(plan := Scale);
      } else if TextOf(o.metadataPlan) == Some("growth") {
        record := record.(plan := Growth);
      }
      if record.status.Canceled? || record.status.NoStatus? {
        record := record.(plan := Free);
      }
    }

    method ApplySubscriptionEvent(e: StripeEvent) returns (ghost found: Option<string>)
      modifies this`records
      ensures Finds(old(records), e, found)
      ensures State() == ApplyEvent(old(State()), e, prices, found)
    {
      var record;
      record, found := LoadRecord(e);
      if record.Some? {
        var changed := UpdateRecord(record.value, e);
        records := records[changed.accountId := changed];
      }
    }

    /** One delivery on the in-memory store, where applying cannot fail. */
    method HandleWebhook(e: StripeEvent) returns (ghost found: Option<string>)
      modifies this`records, this`seen
      ensures !IsHandled(e.kind) || e.id in old(seen) ==> State() == old(State())
      ensures IsHandled(e.kind) && e.id !in old(seen) ==>
                && Finds(old(records), e, found)
                && State() == ApplyEvent(old(State()), e, prices, found).(seen := old(seen) + {e.id})
    {
      found := None;
      if IsHandled(e.kind) {
        var claimed := ClaimEvent(e.id);
        if !claimed {
          assert seen == old(seen);
          return;
        }
        found := ApplySubscriptionEvent(e);
      }
    }
  }

  // ----- results -----

  /** A record without an entitling status has the free plan. */
  predicate RecordSound(r: BillingRecord) { r.status.Entitling() || r.plan.Free? }

  ghost predicate Sound(s: Store) {
    && (forall a :: a in s.records ==> s.records[a].accountId == a && RecordSound(s.records[a]))
    && (forall a :: a in s.overrides ==> !s.overrides[a].plan.Free?)
    && (forall k :: k in s.grants ==> !s.grants[k].plan.Free?)
  }

  /** When an event leaves the account with a paid plan, exactly: an entitling status, and a
      plan it names or one the record already had. */
  lemma PaidIff(r: BillingRecord, e: StripeEvent, prices: Prices)
    ensures RecordSound(Updated(r, e, prices))
    ensures !Updated(r, e, prices).plan.Free? <==>
              StatusOf(e).Entitling() && (PlanNamed(e.object_, prices).Some? || !r.plan.Free?)
    ensures Updated(r, e, prices).accountId == r.accountId
  {}

  /** The resolved account is provisioned exactly when its plan is not free, unless an active
      override is itself free. */
  lemma ProvisionedIff(r: BillingRecord, override_: Option<PlanOverride>, isOperator: bool, now: int)
    ensures var st := StatusFromRecord(r, override_, isOperator, now);
            (st.provisioned <==> !st.plan.Free?)
            <==> isOperator || !(IsActive(override_, now) && override_.value.plan.Free?)
  {}

  /** On a sound store, resolving keeps it sound, the account is provisioned exactly when its
      plan is not free, and without operator or override the plan is the stored one. */
  lemma ResolveOnSound(s: Store, user: User, now: int)
    requires Sound(s)
    ensures var r := ResolveStatus(s, user, now);
            && Sound(r.0)
            && (r.1.Ok? ==>
                  && (r.1.value.provisioned <==> !r.1.value.plan.Free?)
                  && (!r.1.value.source.FromAdmin? ==> r.1.value.plan == RecordOf(s, user).plan))
  {}
}
