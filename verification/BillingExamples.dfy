/** Runs of the billing protocol, each from a new organisation, that mark where its promises stop. */
module BillingExamples {
  import opened Base
  import opened Pricing
  import opened BillingTables
  import opened BillingProtocol
  import opened BillingSafety
  import opened BillingResults
  import opened BillingRenewals

  lemma Extend(start: State, steps: seq<(nat, Step)>, s: State, c: nat, step: Step) returns (longer: seq<(nat, Step)>)
    requires Run(start, steps) == s
    ensures Run(start, longer) == Next(s, c, step)
  {
    longer := steps + [(c, step)];
    assert longer[..|steps|] == steps;
  }

  /** What the runs are about: a priced plan with a trial, early enough for its grace period to end. */
  datatype Offer = Offer(plan: string, price: Price, quantity: int, trialDays: int) {
    predicate Valid(clock: int) {
      && plan != FREE && price.amount > 0 && quantity > 0 && trialDays > 0
      && clock + trialDays * MS_PER_DAY + GRACE_PERIOD < FREE_UNTIL
    }
  }

  // ---- A trial, then its first invoice, then the grace period ----

  predicate Trialed(s: State, o: Offer, end: int) {
    && s.ops == map[] && s.db.invoices == [] && s.db.payments == [] && s.answers == map[] && s.issuedFor == [] && s.applied == {}
    && s.db.subscription.Some?
    && var x := s.db.subscription.value;
       && x.plan == o.plan && x.price == Some(o.price) && x.quantity == o.quantity && x.status == Trialing
       && x.periodEnd == end && !x.cancelAtPeriodEnd
  }

  lemma ToTrial(coupons: map<string, int>, clock: int, vatRate: nat, o: Offer) returns (steps: seq<(nat, Step)>, s: State)
    requires o.Valid(clock)
    ensures Run(Start(coupons, clock, vatRate), steps) == s
    ensures Trialed(s, o, clock + o.trialDays * MS_PER_DAY) && s.clock == clock
  {
    var start := Start(coupons, clock, vatRate);
    var checkout := Checkout(o.plan, o.price, o.quantity, o.trialDays);
    steps := Extend(start, [], start, 0, checkout);
    var trialing := Next(start, 0, checkout);
    assert trialing == SetOp(start, 0, StartingTrial(o.plan, o.price, o.quantity, o.trialDays, clock));
    steps := Extend(start, steps, trialing, 0, Go);
    s := Next(trialing, 0, Go);
  }

  /** The renewal of the trial's end has found nothing issued. */
  predicate Checked(s: State, o: Offer, end: int, c: nat) {
    && c in s.ops && s.ops[c].Issuing? && s.ops[c].intent == Intent(o.plan, o.price, o.quantity, None)
    && s.ops[c].unitAmount == o.price.amount && s.ops[c].discount == None && s.ops[c].due == Some(end) && s.ops[c].linked
  }

  lemma RenewalChecked(s: State, o: Offer, end: int, c: nat) returns (loaded: State, checked: State)
    requires c !in s.ops && s.db.invoices == [] && Trialed(s.(ops := map[]), o, end)
    ensures loaded == Next(s, c, LoadForRenewal) && checked == Next(loaded, c, Go)
    ensures Checked(checked, o, end, c) && checked == SetOp(s, c, checked.ops[c])
  {
    RenewalLoaded(s, c);
    loaded := Next(s, c, LoadForRenewal);
    assert !AlreadyIssued(loaded.db, end);
    checked := Next(loaded, c, Go);
  }

  // ---- Two invoices for one period ----

  lemma LookUpRenewal(start: State, steps: seq<(nat, Step)>, s: State, o: Offer, end: int, c: nat)
    returns (longer: seq<(nat, Step)>, checked: State)
    requires Run(start, steps) == s && c !in s.ops && s.db.invoices == [] && Trialed(s.(ops := map[]), o, end)
    ensures Run(start, longer) == checked && Checked(checked, o, end, c) && checked == SetOp(s, c, checked.ops[c])
  {
    var loaded;
    loaded, checked := RenewalChecked(s, o, end, c);
    longer := Extend(start, steps, s, c, LoadForRenewal);
    longer := Extend(start, longer, loaded, c, Go);
  }

  lemma BothIssue(start: State, steps: seq<(nat, Step)>, s: State, c: nat, d: nat, o: Offer, end: int)
    returns (longer: seq<(nat, Step)>, after: State)
    requires Run(start, steps) == s && RecordsOk(s) && s.applied == {} && c != d
    requires Checked(s, o, end, c) && Checked(s, o, end, d) && o.price.amount > 0 && o.quantity > 0
    ensures Run(start, longer) == after && Doubled(after, end)
  {
    OverlapDoubles(s, c, d, end);
    longer := Extend(start, steps, s, c, Go);
    longer := Extend(start, longer, Next(s, c, Go), d, Go);
    after := Next(Next(s, c, Go), d, Go);
  }

  lemma TwoRenewals(start: State, steps: seq<(nat, Step)>, s: State, o: Offer, end: int)
    returns (longer: seq<(nat, Step)>, after: State)
    requires Run(start, steps) == s && Trialed(s, o, end) && o.price.amount > 0 && o.quantity > 0
    ensures Run(start, longer) == after && Doubled(after, end)
  {
    var first, second;
    longer, first := LookUpRenewal(start, steps, s, o, end, 0);
    longer, second := LookUpRenewal(start, longer, first, o, end, 1);
    longer, after := BothIssue(start, longer, second, 0, 1, o, end);
  }

  /** Two renewals that overlap both find nothing issued, and both issue. */
  lemma RenewedTwice(coupons: map<string, int>, clock: int, vatRate: nat, o: Offer)
    returns (steps: seq<(nat, Step)>, after: State)
    requires o.Valid(clock)
    ensures Run(Start(coupons, clock, vatRate), steps) == after
    ensures Doubled(after, clock + o.trialDays * MS_PER_DAY)
  {
    var start, end := Start(coupons, clock, vatRate), clock + o.trialDays * MS_PER_DAY;
    var trial;
    steps, trial := ToTrial(coupons, clock, vatRate, o);
    steps, after := TwoRenewals(start, steps, trial, o, end);
  }

  // ---- The trial's end goes unpaid ----

  /** One open invoice, with one pending payment that has a session. */
  predicate Billed(t: Tables, session: string) {
    && |t.invoices| == 1 && t.invoices[0].status == Open && t.invoices[0].intent.Some?
    && |t.payments| == 1 && t.payments[0].invoice == 0 && t.payments[0].status == Pending && t.payments[0].session == Some(session)
  }

  predicate AwaitsPayment(s: State, end: int) {
    && s.ops == map[0 := LoadingInvoice(0, Some(end))] && s.db.payments == [] && end == s.clock
    && |s.db.invoices| == 1 && s.db.invoices[0].status == Open && s.db.invoices[0].intent.Some?
  }

  lemma Issued(s: State, o: Offer, end: int) returns (issued: State)
    requires Checked(s, o, end, 0) && s.db.invoices == [] && s.db.payments == [] && s.ops == map[0 := s.ops[0]] && s.clock == end
    requires o.price.amount > 0 && o.quantity > 0
    ensures issued == Next(s, 0, Go) && AwaitsPayment(issued, end)
    ensures issued.db.subscription == s.db.subscription && issued.answers == s.answers
  {
    var line := Line(o.quantity, o.price.amount);
    assert [line][..0] == [];
    assert Subtotal([line]) == o.price.amount * o.quantity;
    TimesMonotone(o.quantity, 1, o.price.amount);
    CouponNeverRaises(Subtotal([line]), None, s.vatRate);
    issued := Next(s, 0, Go);
  }

  predicate Lapsed(s: State, session: string, end: int) {
    && Billed(s.db, session) && s.ops == map[] && s.answers == map[] && s.clock == end && s.db.subscription.Some?
    && s.db.subscription.value.status == PastDue && s.db.subscription.value.graceEndsAt == Some(end + GRACE_PERIOD)
  }

  lemma GraceEntered(s: State, session: string)
    requires s.ops == map[0 := EnteringGrace] && s.db.subscription.Some? && s.db.subscription.value.status == Trialing
    requires Billed(s.db, session) && s.answers == map[]
    ensures Lapsed(Next(s, 0, Go), session, s.clock)
  {
    assert Next(s, 0, Go).ops == map[];
  }

  lemma SessionStored(s: State, end: int, session: string) returns (creating: State, awaiting: State, created: State)
    requires AwaitsPayment(s, end)
    ensures creating == Next(s, 0, Go) && awaiting == Next(creating, 0, Go) && created == Next(awaiting, 0, SessionOpened(session, end))
    ensures Billed(created.db, session) && created.ops == map[0 := EnteringGrace] && created.clock == s.clock
    ensures created.db.subscription == s.db.subscription && created.answers == s.answers
  {
    assert !HasReusable(s.db, 0, s.clock);
    creating := Next(s, 0, Go);
    assert creating.ops == map[0 := CreatingPayment(0, Some(end))];
    awaiting := Next(creating, 0, Go);
    assert awaiting.ops == map[0 := AwaitingSession(0, Some(end))];
    assert awaiting.db.payments == [Payment(0, Pending, s.db.invoices[0].amounts.total, None, None)];
    created := Next(awaiting, 0, SessionOpened(session, end));
  }

  lemma OpenSession(start: State, steps: seq<(nat, Step)>, s: State, end: int, session: string)
    returns (longer: seq<(nat, Step)>, created: State)
    requires Run(start, steps) == s && AwaitsPayment(s, end)
    ensures Run(start, longer) == created && Billed(created.db, session) && created.ops == map[0 := EnteringGrace] && created.clock == s.clock
    ensures created.db.subscription == s.db.subscription && created.answers == s.answers
  {
    var creating, awaiting;
    creating, awaiting, created := SessionStored(s, end, session);
    longer := Extend(start, steps, s, 0, Go);
    longer := Extend(start, longer, creating, 0, Go);
    longer := Extend(start, longer, awaiting, 0, SessionOpened(session, end));
  }

  lemma UnpaidGrace(start: State, steps: seq<(nat, Step)>, issued: State, end: int, session: string)
    returns (longer: seq<(nat, Step)>, lapsed: State)
    requires Run(start, steps) == issued && AwaitsPayment(issued, end) && issued.answers == map[]
    requires issued.db.subscription.Some? && issued.db.subscription.value.status == Trialing
    ensures Run(start, longer) == lapsed && Lapsed(lapsed, session, end)
  {
    var created;
    longer, created := OpenSession(start, steps, issued, end, session);
    GraceEntered(created, session);
    lapsed := Next(created, 0, Go);
    longer := Extend(start, longer, created, 0, Go);
  }

  /** The trial has ended, its invoice is open, seven days of grace have passed, and nobody is at work. */
  lemma ToOverdue(coupons: map<string, int>, clock: int, vatRate: nat, o: Offer, session: string)
    returns (steps: seq<(nat, Step)>, s: State)
    requires o.Valid(clock)
    ensures Run(Start(coupons, clock, vatRate), steps) == s
    ensures Overdue(s) && s.ops == map[] && s.answers == map[] && Billed(s.db, session)
  {
    var start, end := Start(coupons, clock, vatRate), clock + o.trialDays * MS_PER_DAY;
    var trial;
    steps, trial := ToTrial(coupons, clock, vatRate, o);
    steps := Extend(start, steps, trial, 0, Tick(end));
    var checked;
    steps, checked := LookUpRenewal(start, steps, trial.(clock := end), o, end, 0);
    steps := Extend(start, steps, checked, 0, Go);
    var issued, lapsed;
    issued := Issued(checked, o, end);
    steps, lapsed := UnpaidGrace(start, steps, issued, end, session);
    steps := Extend(start, steps, lapsed, 0, Tick(end + GRACE_PERIOD));
    s := lapsed.(clock := end + GRACE_PERIOD);
  }

  // ---- Paid at the last moment ----

  /** The payment of the one invoice is confirmed, and client 1 goes on to apply it. */
  predicate Confirmed(s: State, session: string) {
    && s.ops == map[1 := LoadingPaid(0)] && s.answers == map[session := Paid]
    && |s.db.payments| == 1 && s.db.payments[0].status == Paid && s.db.payments[0].invoice == 0
    && |s.db.invoices| == 1 && s.db.invoices[0].status == Settled && s.db.invoices[0].intent.Some?
  }

  lemma AnsweredPaid(s: State, session: string) returns (decided: State, asking: State, recording: State, paid: State)
    requires s.ops == map[] && s.answers == map[] && Billed(s.db, session)
    ensures decided == Next(s, 1, GatewayDecides(session, Paid)) && asking == Next(decided, 1, LoadForConfirm(0))
    ensures recording == Next(asking, 1, Go) && paid == Next(recording, 1, Go)
    ensures Confirmed(paid, session) && paid.clock == s.clock && paid.db.subscription == s.db.subscription
  {
    decided := Next(s, 1, GatewayDecides(session, Paid));
    assert decided == s.(answers := map[session := Paid]);
    asking := Next(decided, 1, LoadForConfirm(0));
    assert asking.ops == map[1 := Asking(0)];
    recording := Next(asking, 1, Go);
    assert recording.ops == map[1 := Recording(0, Paid)];
    paid := Next(recording, 1, Go);
  }

  lemma PaymentConfirmed(start: State, steps: seq<(nat, Step)>, s: State, session: string)
    returns (longer: seq<(nat, Step)>, paid: State)
    requires Run(start, steps) == s && s.ops == map[] && s.answers == map[] && Billed(s.db, session)
    ensures Run(start, longer) == paid && Confirmed(paid, session)
    ensures paid.clock == s.clock && paid.db.subscription == s.db.subscription
  {
    var decided, asking, recording;
    decided, asking, recording, paid := AnsweredPaid(s, session);
    longer := Extend(start, steps, s, 1, GatewayDecides(session, Paid));
    longer := Extend(start, longer, decided, 1, LoadForConfirm(0));
    longer := Extend(start, longer, asking, 1, Go);
    longer := Extend(start, longer, recording, 1, Go);
  }

  /** The payment of the overdue subscription's invoice has been confirmed, and is about to be applied. */
  lemma ToPaid(coupons: map<string, int>, clock: int, vatRate: nat, o: Offer, session: string)
    returns (steps: seq<(nat, Step)>, s: State)
    requires o.Valid(clock)
    ensures Run(Start(coupons, clock, vatRate), steps) == s && Overdue(s) && Confirmed(s, session)
  {
    var start := Start(coupons, clock, vatRate);
    steps, s := ToOverdue(coupons, clock, vatRate, o, session);
    steps, s := PaymentConfirmed(start, steps, s, session);
  }

  lemma PaidLoaded(s: State, session: string) returns (applying: State)
    requires Confirmed(s, session)
    ensures applying == Next(s, 1, Go) && 1 in applying.ops && applying == SetOp(s, 1, applying.ops[1]) && applying.ops[1].Applying?
  {
    applying := Next(s, 1, Go);
  }

  /** Between the read and the downgrade of an overdue subscription a payment is applied. */
  lemma AppliedInBetween(s: State, c: nat, d: nat) returns (read: State, paid: State, after: State)
    requires Inv(s) && c !in s.ops && d in s.ops && s.ops[d].Applying?
    requires s.db.subscription.Some? && GraceOver(s.db.subscription.value, s.clock)
    ensures read == Next(s, c, LoadForExpiry) && paid == Next(read, d, Go) && after == Next(paid, c, Go)
    ensures PlanOf(paid.db.subscription) == Some(s.ops[d].intent.plan) != Some(FREE) && paid.db.subscription.value.status == Active
    ensures PlanOf(after.db.subscription) == Some(FREE)
  {
    assert OpTrue(s, s.ops[d]);
    read := Next(s, c, LoadForExpiry);
    assert read == SetOp(s, c, Downgrading(s.clock, s.db.subscription));
    paid := Next(read, d, Go);
    assert paid == StepApply(read, d, s.ops[d]);
    assert paid.ops[c] == Downgrading(s.clock, s.db.subscription);
    after := Next(paid, c, Go);
  }

  /**
   * `expireOverdue` reads the subscription and downgrades without looking again: whoever pays in
   * between is put on the free plan all the same, by the very next step.
   */
  lemma JustPaidYetDowngraded(coupons: map<string, int>, clock: int, vatRate: nat, o: Offer)
    returns (steps: seq<(nat, Step)>, paid: State, after: State)
    requires o.Valid(clock)
    ensures Run(Start(coupons, clock, vatRate), steps) == paid && after == Next(paid, 0, Go)
    ensures paid.db.subscription.Some? && paid.db.subscription.value.status == Active && paid.db.subscription.value.plan != FREE
    ensures PlanOf(after.db.subscription) == Some(FREE)
  {
    var start := Start(coupons, clock, vatRate);
    var s;
    steps, s := ToPaid(coupons, clock, vatRate, o, "s");
    var applying := PaidLoaded(s, "s");
    steps := Extend(start, steps, s, 1, Go);
    RunInv(coupons, clock, vatRate, steps);
    var read;
    read, paid, after := AppliedInBetween(applying, 0, 1);
    steps := Extend(start, steps, applying, 0, LoadForExpiry);
    steps := Extend(start, steps, read, 1, Go);
  }

  /** The settled invoice gets another session. */
  lemma SessionAgain(start: State, steps: seq<(nat, Step)>, s: State, c: nat, id: nat, session: string)
    returns (longer: seq<(nat, Step)>, ready: State)
    requires Run(start, steps) == s && c !in s.ops && id < |s.db.invoices| && s.db.invoices[id].status == Settled
    requires !HasReusable(s.db, id, s.clock) && s.db.invoices[id].intent.Some?
    ensures Run(start, longer) == ready && c !in ready.ops && ready.answers == s.answers && ready.db.invoices == s.db.invoices
    ensures |ready.db.payments| == |s.db.payments| + 1 && ready.db.payments[..|s.db.payments|] == s.db.payments
    ensures var q := ready.db.payments[|s.db.payments|]; q.invoice == id && q.status == Pending && q.session == Some(session)
  {
    var loading := Next(s, c, PayInvoice(id));
    longer := Extend(start, steps, s, c, PayInvoice(id));
    var creating := Next(loading, c, Go);
    assert creating == SetOp(loading, c, CreatingPayment(id, None));
    longer := Extend(start, longer, loading, c, Go);
    var awaiting := Next(creating, c, Go);
    assert awaiting.ops[c] == AwaitingSession(|s.db.payments|, None);
    longer := Extend(start, longer, creating, c, Go);
    ready := Next(awaiting, c, SessionOpened(session, s.clock + 1));
    longer := Extend(start, longer, awaiting, c, SessionOpened(session, s.clock + 1));
  }

  /** The gateway calls that session paid too. */
  lemma AnsweredToo(s: State, c: nat, q: nat, session: string) returns (decided: State, asking: State, recording: State, after: State)
    requires c !in s.ops && session !in s.answers && q < |s.db.payments|
    requires s.db.payments[q].status == Pending && s.db.payments[q].session == Some(session) && s.db.payments[q].invoice < |s.db.invoices|
    ensures decided == Next(s, c, GatewayDecides(session, Paid)) && asking == Next(decided, c, LoadForConfirm(q))
    ensures recording == Next(asking, c, Go) && after == Next(recording, c, Go)
    ensures after.db.payments == s.db.payments[q := s.db.payments[q].(status := Paid)]
  {
    decided := Next(s, c, GatewayDecides(session, Paid));
    asking := Next(decided, c, LoadForConfirm(q));
    assert asking == SetOp(decided, c, Asking(q));
    recording := Next(asking, c, Go);
    assert recording == SetOp(asking, c, Recording(q, Paid));
    after := Next(recording, c, Go);
  }

  lemma ConfirmedToo(start: State, steps: seq<(nat, Step)>, s: State, c: nat, q: nat, session: string)
    returns (longer: seq<(nat, Step)>, after: State)
    requires Run(start, steps) == s && c !in s.ops && session !in s.answers && q < |s.db.payments|
    requires s.db.payments[q].status == Pending && s.db.payments[q].session == Some(session) && s.db.payments[q].invoice < |s.db.invoices|
    ensures Run(start, longer) == after && after.db.payments == s.db.payments[q := s.db.payments[q].(status := Paid)]
  {
    var decided, asking, recording;
    decided, asking, recording, after := AnsweredToo(s, c, q, session);
    longer := Extend(start, steps, s, c, GatewayDecides(session, Paid));
    longer := Extend(start, longer, decided, c, LoadForConfirm(q));
    longer := Extend(start, longer, asking, c, Go);
    longer := Extend(start, longer, recording, c, Go);
  }

  /** `createCheckout` does not ask whether the invoice is still open: a settled one is paid a second time. */
  lemma PaidTwice(coupons: map<string, int>, clock: int, vatRate: nat, o: Offer) returns (steps: seq<(nat, Step)>, after: State)
    requires o.Valid(clock)
    ensures Run(Start(coupons, clock, vatRate), steps) == after && |after.db.payments| == 2
    ensures after.db.payments[0].invoice == after.db.payments[1].invoice == 0
    ensures after.db.payments[0].status == after.db.payments[1].status == Paid
  {
    var start := Start(coupons, clock, vatRate);
    var s, ready;
    steps, s := ToPaid(coupons, clock, vatRate, o, "s");
    steps, ready := SessionAgain(start, steps, s, 0, 0, "t");
    steps, after := ConfirmedToo(start, steps, ready, 0, 1, "t");
  }
}
