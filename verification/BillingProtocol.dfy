/**
 * Checkouts, payment confirmations, renewals, cancellations and expiries of one organisation running
 * at the same time. A call is a chain of steps, each one read or one transaction; between two of
 * them any other client, the clock or the payment gateway may move.
 */
module BillingProtocol {
  import opened Base
  import opened Pricing
  import opened BillingTables
  import Calendar

  /** `due`: the period end a renewal has read. */
  datatype Op =
    | Quoting(plan: string, price: Price, quantity: int, linked: bool)
    | StartingTrial(plan: string, price: Price, quantity: int, trialDays: int, now: int)
    | Renewing(intent: Intent, periodStart: int, periodEnd: int)
    | Issuing(intent: Intent, unitAmount: int, discount: Option<Coupon>, linked: bool, due: Option<int>, ends: Option<int>)
    | LoadingPaid(invoice: nat)
    | Applying(invoice: nat, intent: Intent, now: int, periodEnd: int)
    | LoadingInvoice(invoice: nat, due: Option<int>)
    | CreatingPayment(invoice: nat, due: Option<int>)
    | AwaitingSession(payment: nat, due: Option<int>)
    | EnteringGrace
    | Asking(payment: nat)
    | Recording(payment: nat, answer: PaymentStatus)
    | Cancelling(immediate: bool)
    | Downgrading(now: int, overdue: Option<Subscription>)
    | Resuming

  /**
   * `answers`: what the gateway has finally said of a session. The last three fields are kept for the
   * record: when the subscription last became past due, the period end each invoice was issued to
   * renew, and which invoices have been applied.
   */
  datatype State = State(
    db: Tables, clock: int, vatRate: nat, answers: map<string, PaymentStatus>, ops: map<nat, Op>,
    lapsedAt: Option<int>, issuedFor: seq<Option<int>>, applied: set<nat>)

  datatype Step =
    | Tick(time: int)
    | GatewayDecides(session: string, answer: PaymentStatus)
    | CloseExpired
    | Checkout(plan: string, price: Price, quantity: int, trialDays: int)
    | LoadQuote(discount: Option<Coupon>, code: Option<string>)
    | PayInvoice(invoice: nat)
    | LoadForConfirm(payment: nat)
    | LoadForCancel(immediate: bool)
    | LoadForResume
    | LoadForRenewal
    | LoadForExpiry
    | Go
    | SessionOpened(session: string, expiresAt: int)
    | SessionRefused
    | Abandon

  function Start(coupons: map<string, int>, clock: int, vatRate: nat): State {
    State(Tables(None, [], [], [], {}, coupons), clock, vatRate, map[], map[], None, [], {})
  }

  function SetOp(s: State, c: nat, op: Op): State {
    s.(ops := s.ops[c := op])
  }

  function Drop(s: State, c: nat): State {
    s.(ops := s.ops - {c})
  }

  // ---- Calls begin ----

  /** `checkout` up to the branch it takes: downgrade, trial or invoice. */
  function StepCheckout(s: State, c: nat, plan: string, price: Price, quantity: int, trialDays: int): State {
    if quantity < 1 then s
    else if plan == FREE then SetOp(s, c, Downgrading(s.clock, None))
    else if s.db.subscription.None? && trialDays > 0 then SetOp(s, c, StartingTrial(plan, price, quantity, trialDays, s.clock))
    else SetOp(s, c, Quoting(plan, price, quantity, s.db.subscription.Some?))
  }

  /** A confirmation of a payment no longer pending has nothing to ask, and applies a paid one again. */
  function StepConfirm(s: State, c: nat, p: nat): State {
    if p >= |s.db.payments| then s
    else
      var x := s.db.payments[p];
      if x.status == Paid then SetOp(s, c, LoadingPaid(x.invoice))
      else if x.status != Pending || x.session.None? then s
      else SetOp(s, c, Asking(p))
  }

  function StepRenewal(s: State, c: nat): State {
    var sub := s.db.subscription;
    if sub.None? || sub.value.price.None? || sub.value.cancelAtPeriodEnd || sub.value.status == Canceled then s
    else
      var x := sub.value;
      SetOp(s, c, Renewing(Intent(x.plan, x.price.value, x.quantity, None), x.periodEnd,
                           Calendar.NextPeriod(x.periodEnd, x.price.value.interval)))
  }

  function StepExpiry(s: State, c: nat): State {
    var sub := s.db.subscription;
    if sub.None? || sub.value.status != PastDue then s
    else if sub.value.graceEndsAt.Some? && sub.value.graceEndsAt.value > s.clock then s
    else SetOp(s, c, Downgrading(s.clock, sub))
  }

  function StepBegin(s: State, c: nat, step: Step): State {
    match step
    case Tick(time) => if s.clock <= time < FREE_UNTIL then s.(clock := time) else s
    case GatewayDecides(session, answer) =>
      if session in s.answers || answer == Pending then s else s.(answers := s.answers[session := answer])
    case CloseExpired => s.(db := CloseStale(s.db, s.clock))
    case Checkout(plan, price, quantity, trialDays) => StepCheckout(s, c, plan, price, quantity, trialDays)
    case PayInvoice(id) => SetOp(s, c, LoadingInvoice(id, None))
    case LoadForConfirm(p) => StepConfirm(s, c, p)
    case LoadForCancel(immediate) =>
      if s.db.subscription.None? || s.db.subscription.value.status == Canceled then s else SetOp(s, c, Cancelling(immediate))
    case LoadForResume =>
      var sub := s.db.subscription;
      if sub.None? || !sub.value.cancelAtPeriodEnd || sub.value.periodEnd <= s.clock then s else SetOp(s, c, Resuming)
    case LoadForRenewal => StepRenewal(s, c)
    case LoadForExpiry => StepExpiry(s, c)
    case _ => s
  }

  // ---- Calls go on ----

  /** The quote's credit comes from the subscription as it is now, its unit price goes on the invoice line. */
  function StepQuote(s: State, c: nat, op: Op, discount: Option<Coupon>, code: Option<string>): State
    requires op.Quoting?
  {
    if op.quantity < 1 then Drop(s, c)
    else
      var sub := s.db.subscription;
      var credit := if sub.Some? && sub.value.price.Some? && sub.value.status == Active
                    then UnusedCredit(sub.value.price.value.amount * sub.value.quantity, sub.value.periodStart, sub.value.periodEnd, s.clock)
                    else 0;
      SetOp(s, c, Issuing(Intent(op.plan, op.price, op.quantity, code),
                          QuoteChange(op.price.amount, op.quantity, credit, discount).unitAmount, discount, op.linked, None, None))
  }

  /** `issue`, and what its caller does next: apply an invoice of zero, or open a payment. */
  function StepIssue(s: State, c: nat, op: Op): State
    requires op.Issuing?
  {
    var amounts := ComputeInvoiceAmounts(Subtotal([Line(op.intent.quantity, op.unitAmount)]), op.discount, s.vatRate);
    if amounts.Err? then Drop(s, c)
    else
      var invoice := NewInvoice(amounts.value, op.linked, op.due, op.ends, Some(op.intent), s.clock);
      var id := |s.db.invoices|;
      SetOp(s.(db := Issue(s.db, invoice), issuedFor := s.issuedFor + [op.due]), c,
            if amounts.value.total == 0 then LoadingPaid(id) else LoadingInvoice(id, op.due))
  }

  /** `applyPaidInvoice` reads the invoice, then the clock. */
  function StepLoadPaid(s: State, c: nat, id: nat): State {
    if id >= |s.db.invoices| || s.db.invoices[id].status != Settled || s.db.invoices[id].intent.None? then Drop(s, c)
    else
      var intent := s.db.invoices[id].intent.value;
      SetOp(s, c, Applying(id, intent, s.clock, Calendar.NextPeriod(s.clock, intent.price.interval)))
  }

  function StepApply(s: State, c: nat, op: Op): State
    requires op.Applying?
  {
    if op.invoice >= |s.db.invoices| then Drop(s, c)
    else Drop(s.(db := ApplyPaid(s.db, op.invoice, op.intent, op.now, op.periodEnd), applied := s.applied + {op.invoice}), c)
  }

  /** After the payment session: a renewal whose period has ended enters the grace period. */
  function StepAfterSession(s: State, c: nat, due: Option<int>): State {
    if due.Some? && due.value <= s.clock then SetOp(s, c, EnteringGrace) else Drop(s, c)
  }

  /** `createCheckout` reads the invoice, whatever its status, and reuses a live session. */
  function StepLoadInvoice(s: State, c: nat, op: Op): State
    requires op.LoadingInvoice?
  {
    if op.invoice >= |s.db.invoices| then Drop(s, c)
    else if HasReusable(s.db, op.invoice, s.clock) then StepAfterSession(s, c, op.due)
    else SetOp(s, c, CreatingPayment(op.invoice, op.due))
  }

  function StepCreatePayment(s: State, c: nat, op: Op): State
    requires op.CreatingPayment?
  {
    if op.invoice >= |s.db.invoices| then Drop(s, c)
    else SetOp(s.(db := OpenPayment(s.db, op.invoice, s.db.invoices[op.invoice].amounts.total)), c,
               AwaitingSession(|s.db.payments|, op.due))
  }

  function StepSession(s: State, c: nat, op: Op, session: string, expiresAt: int): State
    requires op.AwaitingSession?
  {
    if op.payment >= |s.db.payments| then Drop(s, c)
    else StepAfterSession(s.(db := AttachSession(s.db, op.payment, session, expiresAt)), c, op.due)
  }

  function StepRefused(s: State, c: nat, op: Op): State
    requires op.AwaitingSession?
  {
    if op.payment >= |s.db.payments| then Drop(s, c) else Drop(s.(db := SetPayment(s.db, op.payment, Failed)), c)
  }

  /** The gateway's answer: its final one if it has one, otherwise pending, which ends the call. */
  function StepAsk(s: State, c: nat, p: nat): State {
    if p >= |s.db.payments| || s.db.payments[p].session.None? || s.db.payments[p].session.value !in s.answers then Drop(s, c)
    else SetOp(s, c, Recording(p, s.answers[s.db.payments[p].session.value]))
  }

  /** A short amount is only logged, so it makes no difference here. */
  function StepRecord(s: State, c: nat, p: nat, answer: PaymentStatus): State {
    if p >= |s.db.payments| || s.db.payments[p].invoice >= |s.db.invoices| then Drop(s, c)
    else if answer == Paid then SetOp(s.(db := Settle(s.db, p, s.clock)), c, LoadingPaid(s.db.payments[p].invoice))
    else Drop(s.(db := SetPayment(s.db, p, answer)), c)
  }

  function StepTrial(s: State, c: nat, op: Op): State
    requires op.StartingTrial?
  {
    var r := StartTrial(s.db, op.plan, op.price, op.quantity, op.trialDays, op.now);
    if r.None? then Drop(s, c) else Drop(s.(db := r.value), c)
  }

  /** An immediate cancellation goes on to downgrade. */
  function StepCancel(s: State, c: nat, immediate: bool): State {
    if s.db.subscription.None? then Drop(s, c)
    else
      var s' := s.(db := Cancel(s.db, immediate, s.clock));
      if immediate then SetOp(s', c, Downgrading(s.clock, None)) else Drop(s', c)
  }

  function StepResume(s: State, c: nat): State {
    if s.db.subscription.None? then Drop(s, c) else Drop(s.(db := Resume(s.db)), c)
  }

  function StepCheckIssued(s: State, c: nat, op: Op): State
    requires op.Renewing?
  {
    if AlreadyIssued(s.db, op.periodStart) then Drop(s, c)
    else SetOp(s, c, Issuing(op.intent, op.intent.price.amount, None, true, Some(op.periodStart), Some(op.periodEnd)))
  }

  /** `enterGracePeriod`; without a subscription row its event could not be written. */
  function StepGrace(s: State, c: nat): State {
    if s.db.subscription.None? then Drop(s, c)
    else Drop(s.(db := EnterGrace(s.db, s.clock), lapsedAt := if CanLapse(s.db.subscription) then Some(s.clock) else s.lapsedAt), c)
  }

  function StepDowngrade(s: State, c: nat, now: int): State {
    Drop(s.(db := Downgrade(s.db, now)), c)
  }

  function StepGo(s: State, c: nat, op: Op): State {
    match op
    case StartingTrial(_, _, _, _, _) => StepTrial(s, c, op)
    case Renewing(_, _, _) => StepCheckIssued(s, c, op)
    case Issuing(_, _, _, _, _, _) => StepIssue(s, c, op)
    case LoadingPaid(id) => StepLoadPaid(s, c, id)
    case Applying(_, _, _, _) => StepApply(s, c, op)
    case LoadingInvoice(_, _) => StepLoadInvoice(s, c, op)
    case CreatingPayment(_, _) => StepCreatePayment(s, c, op)
    case EnteringGrace => StepGrace(s, c)
    case Asking(p) => StepAsk(s, c, p)
    case Recording(p, answer) => StepRecord(s, c, p, answer)
    case Cancelling(immediate) => StepCancel(s, c, immediate)
    case Downgrading(now, _) => StepDowngrade(s, c, now)
    case Resuming => StepResume(s, c)
    case _ => s
  }

  function StepOn(s: State, c: nat, op: Op, step: Step): State {
    if step.Abandon? then Drop(s, c)
    else if step.Go? then StepGo(s, c, op)
    else if step.LoadQuote? && op.Quoting? then StepQuote(s, c, op, step.discount, step.code)
    else if step.SessionOpened? && op.AwaitingSession? then StepSession(s, c, op, step.session, step.expiresAt)
    else if step.SessionRefused? && op.AwaitingSession? then StepRefused(s, c, op)
    else s
  }

  /** One step of client `c`; a step that does not apply changes nothing. */
  function Next(s: State, c: nat, step: Step): State {
    if c in s.ops then StepOn(s, c, s.ops[c], step) else StepBegin(s, c, step)
  }

  function Run(s: State, steps: seq<(nat, Step)>): State {
    if steps == [] then s
    else
      var n := |steps| - 1;
      Next(Run(s, steps[..n]), steps[n].0, steps[n].1)
  }

  // ---- What every step keeps ----

  predicate SubscriptionsOk(s: State) {
    && (s.db.subscription.Some? ==> SubscriptionOk(s.db.subscription.value, s.clock))
    && Provenance(s.db) && EventsOk(s.db) && s.clock < FREE_UNTIL
  }

  /** A past-due subscription's deadline is seven days after it lapsed. */
  predicate LapseOk(s: State) {
    s.db.subscription.Some? && s.db.subscription.value.status == PastDue ==>
      s.lapsedAt.Some? && s.db.subscription.value.graceEndsAt == Some(s.lapsedAt.value + GRACE_PERIOD)
  }

  predicate PaymentOk(x: Payment, invoices: seq<Invoice>, answers: map<string, PaymentStatus>) {
    && x.invoice < |invoices| && x.amount == invoices[x.invoice].amounts.total
    && (x.session.None? ==> x.status in {Pending, Failed} && x.expiresAt.None?)
    && (x.status == Paid ==>
          && x.session.value in answers && answers[x.session.value] == Paid
          && invoices[x.invoice].status == Settled)
  }

  predicate PaymentsOk(s: State) {
    && (forall i | 0 <= i < |s.db.payments| :: PaymentOk(s.db.payments[i], s.db.invoices, s.answers))
    && (forall k | k in s.answers :: s.answers[k] != Pending)
  }

  /** What a client holds is still true when it goes on, however long ago it read it. */
  predicate OpTrue(s: State, op: Op) {
    match op
    case Quoting(plan, _, quantity, _) => plan != FREE && quantity >= 1
    case StartingTrial(plan, _, _, trialDays, now) => plan != FREE && trialDays > 0 && now <= s.clock
    case Renewing(intent, _, _) => intent.plan != FREE
    case Issuing(intent, _, _, _, _, _) => intent.plan != FREE
    case Applying(id, intent, now, periodEnd) =>
      && id < |s.db.invoices| && s.db.invoices[id].status == Settled && s.db.invoices[id].intent == Some(intent)
      && intent.plan != FREE && now <= s.clock && now < periodEnd
    case Asking(p) => p < |s.db.payments| && s.db.payments[p].session.Some?
    case Recording(p, answer) =>
      && p < |s.db.payments| && s.db.payments[p].session.Some?
      && s.db.payments[p].session.value in s.answers && s.answers[s.db.payments[p].session.value] == answer
    case Downgrading(now, overdue) =>
      && now <= s.clock
      && (overdue.Some? ==> GraceOver(overdue.value, s.clock))
    case _ => true
  }

  predicate GraceOver(x: Subscription, clock: int) {
    x.status == PastDue && (x.graceEndsAt.Some? ==> x.graceEndsAt.value <= clock)
  }

  predicate Ops(s: State) {
    forall c | c in s.ops :: OpTrue(s, s.ops[c])
  }

  /** A payment whose session is still being opened is in the hands of one client alone. */
  predicate Awaited(s: State) {
    && (forall c | c in s.ops && s.ops[c].AwaitingSession? ::
          s.ops[c].payment < |s.db.payments| && s.db.payments[s.ops[c].payment].session.None? && s.db.payments[s.ops[c].payment].status == Pending)
    && (forall c, d | c in s.ops && d in s.ops && s.ops[c].AwaitingSession? && s.ops[d].AwaitingSession? &&
                      s.ops[c].payment == s.ops[d].payment :: c == d)
  }

  predicate Inv(s: State) {
    SubscriptionsOk(s) && LapseOk(s) && InvoicesOk(s.db) && PaymentsOk(s) && Ops(s) && Awaited(s)
  }

  lemma StartInv(coupons: map<string, int>, clock: int, vatRate: nat)
    requires clock < FREE_UNTIL
    ensures Inv(Start(coupons, clock, vatRate))
  {
  }
}
