/**
 * One organisation's billing rows and the transactions that change them: the subscription, its
 * invoices, the payments made for them, the event log and the redeemed coupons.
 */
module BillingTables {
  import opened Base
  import opened Pricing
  import Calendar

  const FREE := "free"
  const GRACE_PERIOD := 7 * MS_PER_DAY
  /** 31 December 2999, the end of every free period. */
  const FREE_UNTIL := 32_503_593_600_000

  lemma FreeUntilIsThatDay()
    ensures FREE_UNTIL == Calendar.Civil(2999, 11, 31).Number() * MS_PER_DAY
  {
    Calendar.DayFromYearClosed(2999);
    Calendar.DayFromYearClosed(3000);
    Calendar.YearStep(2999);
    Calendar.YearIsItsMonths(Calendar.IsLeap(2999));
  }

  datatype Price = Price(id: string, amount: int, interval: Calendar.Interval)

  datatype Status = Trialing | Active | PastDue | Canceled

  datatype Subscription = Subscription(
    plan: string, price: Option<Price>, status: Status, quantity: int, periodStart: int, periodEnd: int,
    trialEndsAt: Option<int>, graceEndsAt: Option<int>, cancelAtPeriodEnd: bool, canceledAt: Option<int>,
    coupon: Option<string>)

  /** What an invoice was issued for; it travels in the metadata of the invoice line. */
  datatype Intent = Intent(plan: string, price: Price, quantity: int, couponCode: Option<string>)

  datatype InvoiceStatus = Open | Settled

  /** `linked`: the invoice names the subscription. */
  datatype Invoice = Invoice(
    status: InvoiceStatus, amounts: Amounts, amountPaid: int, paidAt: Option<int>, linked: bool,
    periodStart: Option<int>, periodEnd: Option<int>, intent: Option<Intent>)

  datatype PaymentStatus = Pending | Paid | Failed | Voided

  datatype Payment = Payment(invoice: nat, status: PaymentStatus, amount: int, session: Option<string>, expiresAt: Option<int>)

  datatype EventKind = TrialStarted | Activated | Renewed | CanceledBy | Reactivated | PaymentFailed | Downgraded

  datatype Event = Event(kind: EventKind, fromPlan: Option<string>, toPlan: Option<string>)

  /** `redeemedCount` has an entry for every coupon that exists. */
  datatype Tables = Tables(
    subscription: Option<Subscription>, invoices: seq<Invoice>, payments: seq<Payment>, events: seq<Event>,
    redeemed: set<string>, redeemedCount: map<string, int>)

  /** What is subscribed to; the free plan has no price and one seat. */
  datatype Terms = Terms(plan: string, price: Option<Price>, quantity: int)

  const FREE_TERMS := Terms(FREE, None, 1)

  function TermsOf(x: Subscription): Terms {
    Terms(x.plan, x.price, x.quantity)
  }

  function IntendedTerms(intent: Intent): Terms {
    Terms(intent.plan, Some(intent.price), intent.quantity)
  }

  function PlanOf(subscription: Option<Subscription>): Option<string> {
    if subscription.Some? then Some(subscription.value.plan) else None
  }

  // ---- Transactions on the subscription ----

  /** Fails when the organisation already has a subscription row. */
  function StartTrial(t: Tables, plan: string, price: Price, quantity: int, trialDays: int, now: int): Option<Tables> {
    if t.subscription.Some? then None
    else
      var trialEnd := now + trialDays * MS_PER_DAY;
      Some(t.(subscription := Some(Subscription(plan, Some(price), Trialing, quantity, now, trialEnd,
                                                Some(trialEnd), None, false, None, None)),
              events := t.events + [Event(TrialStarted, None, Some(plan))]))
  }

  function Renewal(existing: Option<Subscription>, intent: Intent, now: int, periodEnd: int): Subscription {
    if existing.None?
    then Subscription(intent.plan, Some(intent.price), Active, intent.quantity, now, periodEnd, None, None, false, None, None)
    else existing.value.(plan := intent.plan, price := Some(intent.price), status := Active, quantity := intent.quantity,
                    periodStart := now, periodEnd := periodEnd,
                    graceEndsAt := None, cancelAtPeriodEnd := false, canceledAt := None)
  }

  /** A coupon that exists is redeemed by an organisation once; a second time has no effect. */
  function Redeem(t: Tables, code: Option<string>): Tables {
    if code.None? || t.subscription.None? || code.value !in t.redeemedCount || code.value in t.redeemed then t
    else t.(redeemed := t.redeemed + {code.value},
            redeemedCount := t.redeemedCount[code.value := t.redeemedCount[code.value] + 1],
            subscription := Some(t.subscription.value.(coupon := code)))
  }

  /** The transaction of `applyPaidInvoice`. */
  function ApplyPaid(t: Tables, invoice: nat, intent: Intent, now: int, periodEnd: int): Tables
    requires invoice < |t.invoices|
  {
    Redeem(
      t.(subscription := Some(Renewal(t.subscription, intent, now, periodEnd)),
         invoices := t.invoices[invoice := t.invoices[invoice].(linked := true, periodStart := Some(now), periodEnd := Some(periodEnd))],
         events := t.events + [Event(if t.subscription.Some? then Renewed else Activated, PlanOf(t.subscription), Some(intent.plan))]),
      intent.couponCode)
  }

  function Cancel(t: Tables, immediate: bool, now: int): Tables
    requires t.subscription.Some?
  {
    var x := t.subscription.value;
    t.(subscription := Some(
         if immediate then x.(status := Canceled, canceledAt := Some(now), cancelAtPeriodEnd := false, periodEnd := now)
         else x.(cancelAtPeriodEnd := true, canceledAt := Some(now))),
       events := t.events + [Event(CanceledBy, Some(x.plan), None)])
  }

  function Resume(t: Tables): Tables
    requires t.subscription.Some?
  {
    t.(subscription := Some(t.subscription.value.(cancelAtPeriodEnd := false, canceledAt := None)),
       events := t.events + [Event(Reactivated, None, None)])
  }

  predicate CanLapse(subscription: Option<Subscription>) {
    subscription.Some? && subscription.value.status in {Active, Trialing}
  }

  /** The event is written whether or not a row was updated. */
  function EnterGrace(t: Tables, now: int): Tables {
    t.(subscription := if CanLapse(t.subscription)
                       then Some(t.subscription.value.(status := PastDue, graceEndsAt := Some(now + GRACE_PERIOD)))
                       else t.subscription,
       events := t.events + [Event(PaymentFailed, None, None)])
  }

  /** The transaction of `downgradeToFree`; it leaves `canceledAt` and `trialEndsAt` as they are. */
  function Downgrade(t: Tables, now: int): Tables {
    t.(subscription := Some(
         if t.subscription.None?
         then Subscription(FREE, None, Active, 1, now, FREE_UNTIL, None, None, false, None, None)
         else t.subscription.value.(plan := FREE, price := None, status := Active, quantity := 1, periodStart := now,
                                    periodEnd := FREE_UNTIL, cancelAtPeriodEnd := false, graceEndsAt := None, coupon := None)),
       events := t.events + [Event(Downgraded, PlanOf(t.subscription), Some(FREE))])
  }

  // ---- Transactions on invoices and payments ----

  /** The row `issue` creates: an invoice with nothing to collect is settled from the start. */
  function NewInvoice(amounts: Amounts, linked: bool, periodStart: Option<int>, periodEnd: Option<int>,
                      intent: Option<Intent>, now: int): Invoice {
    if amounts.total == 0 then Invoice(Settled, amounts, 0, Some(now), linked, periodStart, periodEnd, intent)
    else Invoice(Open, amounts, 0, None, linked, periodStart, periodEnd, intent)
  }

  function Issue(t: Tables, invoice: Invoice): Tables {
    t.(invoices := t.invoices + [invoice])
  }

  function OpenPayment(t: Tables, invoice: nat, amount: int): Tables {
    t.(payments := t.payments + [Payment(invoice, Pending, amount, None, None)])
  }

  function AttachSession(t: Tables, p: nat, session: string, expiresAt: int): Tables
    requires p < |t.payments|
  {
    t.(payments := t.payments[p := t.payments[p].(session := Some(session), expiresAt := Some(expiresAt))])
  }

  function SetPayment(t: Tables, p: nat, status: PaymentStatus): Tables
    requires p < |t.payments|
  {
    t.(payments := t.payments[p := t.payments[p].(status := status)])
  }

  /** `markInvoicePaid`: only an open invoice is changed. */
  function MarkPaid(invoice: Invoice, amount: int, now: int): Invoice {
    if invoice.status == Open then invoice.(status := Settled, paidAt := Some(now), amountPaid := amount) else invoice
  }

  /** The transaction of `confirmPayment` for a payment the gateway calls paid. */
  function Settle(t: Tables, p: nat, now: int): Tables
    requires p < |t.payments| && t.payments[p].invoice < |t.invoices|
  {
    var x := t.payments[p];
    t.(payments := t.payments[p := x.(status := Paid)],
       invoices := t.invoices[x.invoice := MarkPaid(t.invoices[x.invoice], x.amount, now)])
  }

  function Closed(p: Payment, now: int): Payment {
    if p.status == Pending && p.expiresAt.Some? && p.expiresAt.value < now then p.(status := Voided) else p
  }

  /** The worker closes payments whose session has expired. */
  function CloseStale(t: Tables, now: int): Tables {
    t.(payments := seq(|t.payments|, i requires 0 <= i < |t.payments| => Closed(t.payments[i], now)))
  }

  /** A pending payment of the invoice with a session that has not expired. */
  predicate Reusable(p: Payment, invoice: nat, now: int) {
    p.invoice == invoice && p.status == Pending && p.session.Some? && p.expiresAt.Some? && p.expiresAt.value > now
  }

  predicate HasReusable(t: Tables, invoice: nat, now: int) {
    exists i | 0 <= i < |t.payments| :: Reusable(t.payments[i], invoice, now)
  }

  /** `prepareRenewal` looks for an invoice of this subscription that starts where the period ends. */
  predicate AlreadyIssued(t: Tables, periodStart: int) {
    exists i | 0 <= i < |t.invoices| :: t.invoices[i].linked && t.invoices[i].periodStart == Some(periodStart)
  }

  // ---- What the rows keep between transactions ----

  /** The plan and the price go together, as do being past due and its deadline; a period runs forward. */
  predicate SubscriptionOk(x: Subscription, clock: int) {
    && (x.price.None? <==> x.plan == FREE)
    && (x.status == PastDue ==> x.graceEndsAt.Some?)
    && (x.graceEndsAt.Some? ==> x.status in {PastDue, Canceled})
    && (x.cancelAtPeriodEnd ==> x.canceledAt.Some?)
    && x.periodStart <= clock && x.periodStart <= x.periodEnd
    && (x.status != Canceled ==> x.periodStart < x.periodEnd)
  }

  predicate IsTrialOf(events: seq<Event>, plan: string) {
    events != [] && events[0].kind == TrialStarted && events[0].toPlan == Some(plan)
  }

  predicate SettledFor(x: Invoice, terms: Terms) {
    x.status == Settled && x.intent.Some? && IntendedTerms(x.intent.value) == terms
  }

  /** One settled invoice was for this plan, price and number of seats. */
  predicate PaidFor(invoices: seq<Invoice>, terms: Terms) {
    exists i | 0 <= i < |invoices| :: SettledFor(invoices[i], terms)
  }

  /** Where plan, price and seats come from: they are the free ones, the trial's, or those of a paid invoice. */
  predicate Provenance(t: Tables) {
    t.subscription.Some? ==>
      var terms := TermsOf(t.subscription.value);
      terms == FREE_TERMS || IsTrialOf(t.events, terms.plan) || PaidFor(t.invoices, terms)
  }

  /** Only the very first event can be the start of a trial. */
  predicate EventsOk(t: Tables) {
    && (t.subscription.None? ==> t.events == [])
    && (forall i | 0 < i < |t.events| :: t.events[i].kind != TrialStarted)
  }

  predicate InvoiceOk(x: Invoice) {
    && x.amounts.total == x.amounts.subtotal - x.amounts.discount + x.amounts.vat
    && (x.status == Settled ==> x.amountPaid == x.amounts.total && x.paidAt.Some?)
    && (x.status == Open ==> x.amountPaid == 0 && x.amounts.total > 0 && x.paidAt.None?)
    && (x.intent.Some? ==> x.intent.value.plan != FREE)
  }

  predicate InvoicesOk(t: Tables) {
    forall i | 0 <= i < |t.invoices| :: InvoiceOk(t.invoices[i])
  }

  /** A payment is for the whole of its invoice, and a paid one has settled it. */
  predicate PaymentFits(x: Payment, invoices: seq<Invoice>) {
    x.invoice < |invoices| && x.amount == invoices[x.invoice].amounts.total
    && (x.status == Paid ==> invoices[x.invoice].status == Settled)
  }

  /** A payment whose link can still be paid. */
  predicate LivePayment(p: Payment, now: int) {
    Reusable(p, p.invoice, now)
  }

  predicate OneLive(t: Tables, now: int) {
    forall p, q | 0 <= p < q < |t.payments| && t.payments[p].invoice == t.payments[q].invoice ::
      !LivePayment(t.payments[p], now) || !LivePayment(t.payments[q], now)
  }

  /** What settled invoices account for, they still account for with more invoices settled or linked. */
  lemma PaidForGrows(invoices: seq<Invoice>, invoices': seq<Invoice>, terms: Terms)
    requires |invoices| <= |invoices'|
    requires forall i | 0 <= i < |invoices| ::
               invoices'[i].intent == invoices[i].intent && (invoices[i].status == Settled ==> invoices'[i].status == Settled)
    ensures PaidFor(invoices, terms) ==> PaidFor(invoices', terms)
  {
    if PaidFor(invoices, terms) {
      var i :| 0 <= i < |invoices| && SettledFor(invoices[i], terms);
      assert SettledFor(invoices'[i], terms);
    }
  }

  predicate Sound(t: Tables, now: int) {
    && now < FREE_UNTIL && (t.subscription.Some? ==> SubscriptionOk(t.subscription.value, now))
    && Provenance(t) && EventsOk(t) && InvoicesOk(t)
    && (forall i | 0 <= i < |t.payments| :: PaymentFits(t.payments[i], t.invoices))
  }

  lemma IssueSound(t: Tables, invoice: Invoice, now: int)
    requires Sound(t, now) && InvoiceOk(invoice)
    ensures Sound(Issue(t, invoice), now)
  {
    if t.subscription.Some? {
      PaidForGrows(t.invoices, Issue(t, invoice).invoices, TermsOf(t.subscription.value));
    }
  }

  lemma SettleSound(t: Tables, p: nat, now: int)
    requires Sound(t, now) && p < |t.payments| && t.payments[p].invoice < |t.invoices|
    ensures Sound(Settle(t, p, now), now)
  {
    assert PaymentFits(t.payments[p], t.invoices);
    if t.subscription.Some? {
      PaidForGrows(t.invoices, Settle(t, p, now).invoices, TermsOf(t.subscription.value));
    }
  }

  lemma ApplySound(t: Tables, invoice: nat, intent: Intent, now: int, periodEnd: int)
    requires Sound(t, now) && invoice < |t.invoices| && t.invoices[invoice].status == Settled && t.invoices[invoice].intent == Some(intent)
    requires now < periodEnd
    ensures Sound(ApplyPaid(t, invoice, intent, now, periodEnd), now)
  {
    var t' := ApplyPaid(t, invoice, intent, now, periodEnd);
    assert SettledFor(t'.invoices[invoice], IntendedTerms(intent));
    assert InvoiceOk(t.invoices[invoice]);
  }

  /** Of an invoice only its link to the subscription and its period may differ. */
  predicate SameDebts(invoices: seq<Invoice>, invoices': seq<Invoice>) {
    && |invoices'| == |invoices|
    && forall i | 0 <= i < |invoices| ::
         invoices'[i].(linked := true, periodStart := None, periodEnd := None) ==
         invoices[i].(linked := true, periodStart := None, periodEnd := None)
  }

  /** No coupon is counted without being marked as redeemed, and none twice. */
  predicate RedeemedMore(t: Tables, t': Tables, code: Option<string>) {
    && t.redeemed <= t'.redeemed <= t.redeemed + (if code.Some? then {code.value} else {})
    && t'.redeemedCount.Keys == t.redeemedCount.Keys
    && forall k | k in t.redeemedCount :: t'.redeemedCount[k] - t.redeemedCount[k] == if k in t'.redeemed && k !in t.redeemed then 1 else 0
  }

  /** One event more, of this kind, from the plan there was to the plan there is if a change of plan is recorded. */
  predicate Logged(t: Tables, t': Tables, kind: EventKind, change: bool) {
    && |t'.events| == |t.events| + 1 && t'.events[..|t.events|] == t.events && t'.events[|t.events|].kind == kind
    && (change ==> t'.events[|t.events|].fromPlan == PlanOf(t.subscription) && t'.events[|t.events|].toPlan == PlanOf(t'.subscription))
  }

  predicate SameOthers<T(==)>(rows: seq<T>, rows': seq<T>, i: nat) {
    |rows'| == |rows| && forall k | 0 <= k < |rows| && k != i :: rows'[k] == rows[k]
  }

  method AddUp(lines: seq<Line>) returns (subtotal: int)
    ensures subtotal == Subtotal(lines)
  {
    subtotal := 0;
    for k := 0 to |lines|
      invariant subtotal == Subtotal(lines[..k])
    {
      assert lines[..k + 1][..k] == lines[..k];
      subtotal := subtotal + lines[k].unitAmount * lines[k].quantity;
    }
    assert lines[..|lines|] == lines;
  }

  // ---- The rows in place ----

  class BillingStore {
    var subscription: Option<Subscription>
    var invoices: seq<Invoice>
    var payments: seq<Payment>
    var events: seq<Event>
    var redeemed: set<string>
    var redeemedCount: map<string, int>

    function View(): Tables
      reads this
    {
      Tables(subscription, invoices, payments, events, redeemed, redeemedCount)
    }

    constructor (coupons: map<string, int>)
      ensures View() == Tables(None, [], [], [], {}, coupons)
      ensures forall now | now < FREE_UNTIL :: Sound(View(), now)
    {
      subscription, invoices, payments, events, redeemed, redeemedCount := None, [], [], [], {}, coupons;
    }

    method Log(kind: EventKind, fromPlan: Option<string>, toPlan: Option<string>)
      modifies this`events
      ensures events == old(events) + [Event(kind, fromPlan, toPlan)]
    {
      events := events + [Event(kind, fromPlan, toPlan)];
    }

    method BeginTrial(plan: string, price: Price, quantity: int, trialDays: int, now: int) returns (ok: bool)
      modifies this
      ensures ok <==> StartTrial(old(View()), plan, price, quantity, trialDays, now).Some?
      ensures View() == OrElse(StartTrial(old(View()), plan, price, quantity, trialDays, now), old(View()))
      ensures old(Sound(View(), now)) && plan != FREE && trialDays > 0 ==> Sound(View(), now)
      ensures ok <==> old(subscription).None?
      ensures old(EventsOk(View())) && ok ==> IsTrialOf(events, plan) && |events| == 1
      ensures subscription.Some? && (!ok ==> View() == old(View()))
      ensures ok ==>
        && TermsOf(subscription.value) == Terms(plan, Some(price), quantity) && subscription.value.status == Trialing
        && subscription.value.periodStart == now && subscription.value.periodEnd - now == trialDays * 86_400_000
        && subscription.value.trialEndsAt == Some(subscription.value.periodEnd) && subscription.value.coupon.None?
        && !subscription.value.cancelAtPeriodEnd && subscription.value.canceledAt.None? && subscription.value.graceEndsAt.None?
      ensures invoices == old(invoices) && payments == old(payments)
    {
      ok := subscription.None?;
      if ok {
        var trialEnd := now + trialDays * MS_PER_DAY;
        subscription := Some(Subscription(plan, Some(price), Trialing, quantity, now, trialEnd, Some(trialEnd), None, false, None, None));
        Log(TrialStarted, None, Some(plan));
      }
    }

    method Apply(invoice: nat, intent: Intent, now: int, periodEnd: int)
      requires invoice < |invoices|
      modifies this
      ensures View() == ApplyPaid(old(View()), invoice, intent, now, periodEnd)
      ensures old(Sound(View(), now) && invoices[invoice].status == Settled && invoices[invoice].intent == Some(intent)) && now < periodEnd ==>
        Sound(View(), now)
      ensures subscription.Some? && TermsOf(subscription.value) == IntendedTerms(intent) && subscription.value.status == Active
      ensures subscription.value.periodStart == now && subscription.value.periodEnd == periodEnd
      ensures subscription.value.graceEndsAt.None? && !subscription.value.cancelAtPeriodEnd && subscription.value.canceledAt.None?
      ensures SameDebts(old(invoices), invoices) && SameOthers(old(invoices), invoices, invoice) && payments == old(payments)
      ensures invoices[invoice].linked && invoices[invoice].periodStart == Some(now) && invoices[invoice].periodEnd == Some(periodEnd)
      ensures Logged(old(View()), View(), if old(subscription).None? then Activated else Renewed, true)
      ensures RedeemedMore(old(View()), View(), intent.couponCode)
      ensures subscription.value.coupon ==
              if redeemed != old(redeemed) then intent.couponCode else if old(subscription).Some? then old(subscription).value.coupon else None
      ensures old(subscription).Some? ==> subscription.value.trialEndsAt == old(subscription).value.trialEndsAt
    {
      if Sound(View(), now) && invoices[invoice].status == Settled && invoices[invoice].intent == Some(intent) && now < periodEnd {
        ApplySound(View(), invoice, intent, now, periodEnd);
      }
      var kind, fromPlan := if subscription.Some? then Renewed else Activated, PlanOf(subscription);
      subscription := Some(Renewal(subscription, intent, now, periodEnd));
      invoices := invoices[invoice := invoices[invoice].(linked := true, periodStart := Some(now), periodEnd := Some(periodEnd))];
      Log(kind, fromPlan, Some(intent.plan));
      RedeemCoupon(intent.couponCode);
    }

    method RedeemCoupon(code: Option<string>)
      modifies this`redeemed, this`redeemedCount, this`subscription
      ensures View() == Redeem(old(View()), code)
      ensures RedeemedMore(old(View()), View(), code)
    {
      if code.Some? && subscription.Some? && code.value in redeemedCount && code.value !in redeemed {
        redeemed := redeemed + {code.value};
        redeemedCount := redeemedCount[code.value := redeemedCount[code.value] + 1];
        subscription := Some(subscription.value.(coupon := code));
      }
    }

    method CancelNow(immediate: bool, now: int)
      requires subscription.Some?
      modifies this
      ensures View() == Cancel(old(View()), immediate, now)
      ensures old(Sound(View(), now)) ==> Sound(View(), now)
      ensures subscription.Some? && TermsOf(subscription.value) == TermsOf(old(subscription).value) && subscription.value.canceledAt == Some(now)
      ensures Logged(old(View()), View(), CanceledBy, false)
      ensures immediate ==> subscription.value.status == Canceled && subscription.value.periodEnd == now && !subscription.value.cancelAtPeriodEnd
      ensures !immediate ==> subscription.value.cancelAtPeriodEnd
      ensures !immediate ==>
        subscription.value.status == old(subscription).value.status && subscription.value.periodEnd == old(subscription).value.periodEnd
      ensures !immediate ==>
        (Resume(View()).subscription == old(subscription) <==> !old(subscription).value.cancelAtPeriodEnd && old(subscription).value.canceledAt.None?)
      ensures invoices == old(invoices) && payments == old(payments)
    {
      var x := subscription.value;
      subscription := Some(if immediate
                           then x.(status := Canceled, canceledAt := Some(now), cancelAtPeriodEnd := false, periodEnd := now)
                           else x.(cancelAtPeriodEnd := true, canceledAt := Some(now)));
      Log(CanceledBy, Some(x.plan), None);
    }

    method ResumeNow()
      requires subscription.Some?
      modifies this
      ensures View() == Resume(old(View()))
      ensures forall now :: old(Sound(View(), now)) ==> Sound(View(), now)
      ensures Logged(old(View()), View(), Reactivated, false) && subscription.Some? && subscription.value.canceledAt.None?
      ensures subscription.Some? && !subscription.value.cancelAtPeriodEnd && TermsOf(subscription.value) == TermsOf(old(subscription).value)
      ensures subscription.value.status == old(subscription).value.status && subscription.value.periodEnd == old(subscription).value.periodEnd
      ensures invoices == old(invoices) && payments == old(payments)
    {
      subscription := Some(subscription.value.(cancelAtPeriodEnd := false, canceledAt := None));
      Log(Reactivated, None, None);
    }

    method StartGrace(now: int)
      modifies this
      ensures View() == EnterGrace(old(View()), now)
      ensures old(Sound(View(), now)) && old(subscription).Some? ==> Sound(View(), now)
      ensures PlanOf(subscription) == old(PlanOf(subscription)) && invoices == old(invoices) && payments == old(payments)
      ensures old(CanLapse(subscription)) ==>
        TermsOf(subscription.value) == TermsOf(old(subscription).value) && subscription.value.status == PastDue &&
        subscription.value.periodEnd == old(subscription).value.periodEnd
      ensures Logged(old(View()), View(), PaymentFailed, false)
      ensures old(CanLapse(subscription)) ==> subscription.value.graceEndsAt == Some(now + GRACE_PERIOD)
      ensures old(subscription.Some? && subscription.value.status == PastDue) ==> subscription == old(subscription)
    {
      if subscription.Some? && subscription.value.status in {Active, Trialing} {
        subscription := Some(subscription.value.(status := PastDue, graceEndsAt := Some(now + GRACE_PERIOD)));
      }
      Log(PaymentFailed, None, None);
    }

    method DowngradeToFree(now: int)
      modifies this
      ensures View() == Downgrade(old(View()), now)
      ensures old(Sound(View(), now)) ==> Sound(View(), now)
      ensures subscription.Some? && TermsOf(subscription.value) == FREE_TERMS && subscription.value.status == Active
      ensures subscription.value.periodStart == now && subscription.value.periodEnd == FREE_UNTIL && !subscription.value.cancelAtPeriodEnd
      ensures Logged(old(View()), View(), Downgraded, true)
      ensures old(subscription).Some? ==>
        subscription.value.canceledAt == old(subscription).value.canceledAt && subscription.value.trialEndsAt == old(subscription).value.trialEndsAt
      ensures subscription.value.graceEndsAt.None? && subscription.value.coupon.None?
      ensures invoices == old(invoices) && payments == old(payments) && redeemed == old(redeemed)
    {
      var fromPlan := PlanOf(subscription);
      subscription := Some(
        if subscription.None?
        then Subscription(FREE, None, Active, 1, now, FREE_UNTIL, None, None, false, None, None)
        else subscription.value.(plan := FREE, price := None, status := Active, quantity := 1, periodStart := now,
                                 periodEnd := FREE_UNTIL, cancelAtPeriodEnd := false, graceEndsAt := None, coupon := None));
      Log(Downgraded, fromPlan, Some(FREE));
    }

    /** `issue`: adds up the lines, and stores an invoice unless the subtotal is negative. */
    method IssueInvoice(lines: seq<Line>, coupon: Option<Coupon>, vatRate: nat, linked: bool,
                        periodStart: Option<int>, periodEnd: Option<int>, intent: Option<Intent>, now: int)
      returns (r: Result<nat, AmountError>)
      modifies this`invoices
      ensures r.Ok? <==> Subtotal(lines) >= 0
      ensures r.Err? ==> View() == old(View())
      ensures r.Ok? ==>
        && r.value == |old(invoices)|
        && View() == Issue(old(View()), NewInvoice(ComputeInvoiceAmounts(Subtotal(lines), coupon, vatRate).value,
                                                   linked, periodStart, periodEnd, intent, now))
        && (invoices[r.value].status == Settled <==> invoices[r.value].amounts.total == 0)
        && invoices[r.value].linked == linked && invoices[r.value].intent == intent
        && invoices[r.value].periodStart == periodStart && invoices[r.value].periodEnd == periodEnd
      ensures old(Sound(View(), now)) && (intent.Some? ==> intent.value.plan != FREE) ==> Sound(View(), now)
    {
      var subtotal := AddUp(lines);
      AmountsAddUp(subtotal, coupon, vatRate);
      var amounts := ComputeInvoiceAmounts(subtotal, coupon, vatRate);
      if amounts.Err? {
        return Err(amounts.error);
      }
      var invoice := NewInvoice(amounts.value, linked, periodStart, periodEnd, intent, now);
      if Sound(View(), now) && (intent.Some? ==> intent.value.plan != FREE) {
        IssueSound(View(), invoice, now);
      }
      r := Ok(|invoices|);
      invoices := invoices + [invoice];
    }

    /** The newest payment of the invoice whose session can still be paid. */
    method FindReusable(invoice: nat, now: int) returns (p: Option<nat>)
      ensures p.Some? <==> HasReusable(View(), invoice, now)
      ensures p.Some? ==> p.value < |payments| && Reusable(payments[p.value], invoice, now)
      ensures p.Some? ==> forall q | p.value < q < |payments| :: !Reusable(payments[q], invoice, now)
    {
      var k := |payments|;
      while k > 0
        invariant 0 <= k <= |payments| && forall q | k <= q < |payments| :: !Reusable(payments[q], invoice, now)
      {
        k := k - 1;
        if Reusable(payments[k], invoice, now) {
          return Some(k);
        }
      }
      p := None;
    }

    /** `createCheckout`, undisturbed; `answer` is the session and expiry the gateway gives, unless it refuses. */
    method CreateCheckout(invoice: nat, now: int, answer: Option<(string, int)>) returns (p: Option<nat>)
      modifies this`payments
      ensures invoice >= |invoices| ==> p.None? && View() == old(View())
      ensures invoice < |invoices| && old(HasReusable(View(), invoice, now)) ==>
        View() == old(View()) && p.Some? && p.value < |payments| && Reusable(payments[p.value], invoice, now)
      ensures invoice < |invoices| && !old(HasReusable(View(), invoice, now)) ==>
        && payments == old(payments) +
             [Payment(invoice, if answer.Some? then Pending else Failed, invoices[invoice].amounts.total,
                      if answer.Some? then Some(answer.value.0) else None, if answer.Some? then Some(answer.value.1) else None)]
        && (p.Some? <==> answer.Some?)
      ensures old(OneLive(View(), now)) ==> OneLive(View(), now)
      ensures old(Sound(View(), now)) ==> Sound(View(), now)
    {
      if invoice >= |invoices| {
        return None;
      }
      p := FindReusable(invoice, now);
      if p.Some? {
        return;
      }
      var k := |payments|;
      payments := payments + [Payment(invoice, Pending, invoices[invoice].amounts.total, None, None)];
      if answer.None? {
        payments := payments[k := payments[k].(status := Failed)];
        return None;
      }
      payments := payments[k := payments[k].(session := Some(answer.value.0), expiresAt := Some(answer.value.1))];
      p := Some(k);
    }

    method SettlePayment(p: nat, now: int)
      requires p < |payments| && payments[p].invoice < |invoices|
      modifies this`payments, this`invoices
      ensures View() == Settle(old(View()), p, now)
      ensures old(Sound(View(), now)) ==> Sound(View(), now)
      ensures payments[p].status == Paid && invoices[old(payments)[p].invoice].status == Settled
      ensures old(payments[p].status == Paid && invoices[payments[p].invoice].status == Settled) ==> View() == old(View())
      ensures old(invoices[payments[p].invoice].status == Settled) ==> invoices == old(invoices)
      ensures old(invoices[payments[p].invoice].status == Open) ==>
        invoices[old(payments)[p].invoice].paidAt == Some(now) && invoices[old(payments)[p].invoice].amountPaid == old(payments)[p].amount
      ensures SameOthers(old(payments), payments, p) && SameOthers(old(invoices), invoices, old(payments)[p].invoice)
      ensures subscription == old(subscription)
    {
      if Sound(View(), now) {
        SettleSound(View(), p, now);
      }
      payments := payments[p := payments[p].(status := Paid)];
      var i := payments[p].invoice;
      if invoices[i].status == Open {
        invoices := invoices[i := invoices[i].(status := Settled, paidAt := Some(now), amountPaid := payments[p].amount)];
      }
    }

    method CloseExpired(now: int)
      modifies this`payments
      ensures View() == CloseStale(old(View()), now)
      ensures |payments| == |old(payments)| && forall i | 0 <= i < |payments| ::
        payments[i] == if old(payments)[i].status == Pending && old(payments)[i].expiresAt.Some? && old(payments)[i].expiresAt.value < now
                       then old(payments)[i].(status := Voided) else old(payments)[i]
    {
      for i := 0 to |payments|
        invariant |payments| == |old(payments)|
        invariant forall j | 0 <= j < |payments| :: payments[j] == if j < i then Closed(old(payments)[j], now) else old(payments)[j]
      {
        if payments[i].status == Pending && payments[i].expiresAt.Some? && payments[i].expiresAt.value < now {
          payments := payments[i := payments[i].(status := Voided)];
        }
      }
      assert payments == CloseStale(old(View()), now).payments;
    }
  }
}
