/** What holds in every run of the billing protocol. */
module BillingSafety {
  import opened Base
  import opened Pricing
  import opened BillingTables
  import opened BillingProtocol
  import Calendar

  // ---- What never changes back ----

  predicate InvoiceGrows(x: Invoice, y: Invoice) {
    && y.amounts == x.amounts && y.intent == x.intent
    && (x.status == Settled ==> y.status == Settled && y.amountPaid == x.amountPaid && y.paidAt == x.paidAt)
  }

  predicate PaymentGrows(x: Payment, y: Payment) {
    && y.invoice == x.invoice && y.amount == x.amount && (x.session.Some? ==> y.session == x.session)
    && (x.status == Paid ==> y.status == Paid)
  }

  predicate InvoicesGrow(xs: seq<Invoice>, ys: seq<Invoice>) {
    |xs| <= |ys| && forall i | 0 <= i < |xs| :: InvoiceGrows(xs[i], ys[i])
  }

  predicate PaymentsGrow(xs: seq<Payment>, ys: seq<Payment>) {
    |xs| <= |ys| && forall i | 0 <= i < |xs| :: PaymentGrows(xs[i], ys[i])
  }

  predicate AnswersGrow(a: map<string, PaymentStatus>, b: map<string, PaymentStatus>) {
    forall k | k in a :: k in b && b[k] == a[k]
  }

  /** Invoices and payments stay, with their amounts; what is paid stays paid, a settled invoice as it was settled. */
  predicate Grows(s: State, s': State) {
    && s.clock <= s'.clock && AnswersGrow(s.answers, s'.answers)
    && InvoicesGrow(s.db.invoices, s'.db.invoices) && PaymentsGrow(s.db.payments, s'.db.payments)
  }

  predicate OthersStay(s: State, s': State, c: nat) {
    forall d | d in s'.ops && d != c :: d in s.ops && s'.ops[d] == s.ops[d]
  }

  lemma OpsKeep(s: State, s': State, c: nat)
    requires Ops(s) && Grows(s, s') && OthersStay(s, s', c)
    requires c in s'.ops ==> OpTrue(s', s'.ops[c])
    ensures Ops(s')
  {
  }

  /** Client `c` is not left waiting for a session, and payments others wait for are as they were. */
  lemma AwaitedKeeps(s: State, s': State, c: nat)
    requires Awaited(s) && OthersStay(s, s', c) && |s.db.payments| <= |s'.db.payments|
    requires c in s'.ops ==> !s'.ops[c].AwaitingSession?
    requires forall p | 0 <= p < |s.db.payments| && s.db.payments[p].session.None? && s.db.payments[p].status == Pending &&
                        !(c in s.ops && s.ops[c].AwaitingSession? && s.ops[c].payment == p) :: s'.db.payments[p] == s.db.payments[p]
    ensures Awaited(s')
  {
  }

  lemma SameGrows(s: State, s': State)
    requires s'.clock == s.clock && s'.answers == s.answers && s'.db.payments == s.db.payments
    requires InvoicesGrow(s.db.invoices, s'.db.invoices)
    ensures Grows(s, s')
  {
  }

  // ---- Steps that change no row ----

  lemma QuietKeeps(s: State, s': State, c: nat)
    requires Inv(s) && s' == s.(ops := s'.ops) && OthersStay(s, s', c)
    requires c in s'.ops ==> OpTrue(s, s'.ops[c]) && !s'.ops[c].AwaitingSession?
    ensures Inv(s') && Grows(s, s')
  {
    SameGrows(s, s');
    OpsKeep(s, s', c);
    AwaitedKeeps(s, s', c);
  }

  lemma TickKeeps(s: State, time: int)
    requires Inv(s) && s.clock <= time < FREE_UNTIL
    ensures Inv(s.(clock := time)) && Grows(s, s.(clock := time))
  {
    OpsKeep(s, s.(clock := time), 0);
  }

  lemma DecideKeeps(s: State, c: nat, session: string, answer: PaymentStatus)
    requires Inv(s) && c !in s.ops && session !in s.answers && answer != Pending
    ensures var s' := s.(answers := s.answers[session := answer]); Inv(s') && Grows(s, s')
  {
    var s' := s.(answers := s.answers[session := answer]);
    assert Grows(s, s');
    OpsKeep(s, s', c);
    forall i | 0 <= i < |s'.db.payments| ensures PaymentOk(s'.db.payments[i], s'.db.invoices, s'.answers) {
      assert PaymentOk(s.db.payments[i], s.db.invoices, s.answers);
    }
  }

  // ---- Steps on the payments ----

  /** Payments change one by one, invoices stay. */
  lemma PaymentsKeep(s: State, s': State, c: nat)
    requires Inv(s) && s' == s.(db := s.db.(payments := s'.db.payments), ops := s'.ops) && OthersStay(s, s', c)
    requires PaymentsGrow(s.db.payments, s'.db.payments)
    requires forall i | 0 <= i < |s'.db.payments| :: PaymentOk(s'.db.payments[i], s.db.invoices, s.answers)
    requires c in s'.ops ==> OpTrue(s', s'.ops[c])
    requires Awaited(s')
    ensures Inv(s') && Grows(s, s')
  {
    OpsKeep(s, s', c);
  }

  lemma CloseKeeps(s: State, c: nat)
    requires Inv(s) && c !in s.ops
    ensures var s' := s.(db := CloseStale(s.db, s.clock)); Inv(s') && Grows(s, s')
  {
    var s' := s.(db := CloseStale(s.db, s.clock));
    forall i | 0 <= i < |s.db.payments|
      ensures PaymentGrows(s.db.payments[i], s'.db.payments[i]) && PaymentOk(s'.db.payments[i], s.db.invoices, s.answers)
    {
      assert PaymentOk(s.db.payments[i], s.db.invoices, s.answers);
    }
    forall p | 0 <= p < |s.db.payments| && s.db.payments[p].session.None? ensures s'.db.payments[p] == s.db.payments[p] {
      assert PaymentOk(s.db.payments[p], s.db.invoices, s.answers);
    }
    AwaitedKeeps(s, s', c);
    PaymentsKeep(s, s', c);
  }

  lemma CreateKeeps(s: State, c: nat, op: Op)
    requires Inv(s) && c in s.ops && op == s.ops[c] && op.CreatingPayment?
    ensures Inv(StepCreatePayment(s, c, op)) && Grows(s, StepCreatePayment(s, c, op))
  {
    var s' := StepCreatePayment(s, c, op);
    if op.invoice >= |s.db.invoices| {
      QuietKeeps(s, s', c);
    } else {
      CreatedAwaited(s, s', c);
      PaymentsKeep(s, s', c);
    }
  }

  lemma CreatedAwaited(s: State, s': State, c: nat)
    requires Awaited(s) && OthersStay(s, s', c) && |s'.db.payments| == |s.db.payments| + 1
    requires s.db.payments == s'.db.payments[..|s.db.payments|]
    requires c in s'.ops && s'.ops[c].AwaitingSession? && s'.ops[c].payment == |s.db.payments|
    requires s'.db.payments[|s.db.payments|].session.None? && s'.db.payments[|s.db.payments|].status == Pending
    ensures Awaited(s')
  {
  }

  /** One payment gets a session, or another status. */
  lemma PaymentSet(s: State, s': State, c: nat, p: nat)
    requires Inv(s) && c in s.ops && p < |s.db.payments| && |s'.db.payments| == |s.db.payments|
    requires s' == s.(db := s.db.(payments := s.db.payments[p := s'.db.payments[p]]), ops := s'.ops) && OthersStay(s, s', c)
    requires PaymentGrows(s.db.payments[p], s'.db.payments[p]) && PaymentOk(s'.db.payments[p], s.db.invoices, s.answers)
    requires c in s'.ops ==> OpTrue(s', s'.ops[c]) && !s'.ops[c].AwaitingSession?
    requires (s.ops[c].AwaitingSession? && s.ops[c].payment == p) || s.db.payments[p].session.Some?
    ensures Inv(s') && Grows(s, s')
  {
    forall i | 0 <= i < |s.db.payments|
      ensures PaymentGrows(s.db.payments[i], s'.db.payments[i]) && PaymentOk(s'.db.payments[i], s.db.invoices, s.answers)
    {
      assert PaymentOk(s.db.payments[i], s.db.invoices, s.answers);
    }
    AwaitedKeeps(s, s', c);
    PaymentsKeep(s, s', c);
  }

  lemma SessionKeeps(s: State, c: nat, op: Op, session: string, expiresAt: int)
    requires Inv(s) && c in s.ops && op == s.ops[c] && op.AwaitingSession?
    ensures Inv(StepSession(s, c, op, session, expiresAt)) && Grows(s, StepSession(s, c, op, session, expiresAt))
  {
    assert PaymentOk(s.db.payments[op.payment], s.db.invoices, s.answers);
    PaymentSet(s, StepSession(s, c, op, session, expiresAt), c, op.payment);
  }

  lemma RefusedKeeps(s: State, c: nat, op: Op)
    requires Inv(s) && c in s.ops && op == s.ops[c] && op.AwaitingSession?
    ensures Inv(StepRefused(s, c, op)) && Grows(s, StepRefused(s, c, op))
  {
    assert PaymentOk(s.db.payments[op.payment], s.db.invoices, s.answers);
    PaymentSet(s, StepRefused(s, c, op), c, op.payment);
  }

  /** A payment the gateway has called paid is never given another status. */
  lemma RecordKeeps(s: State, c: nat, p: nat, answer: PaymentStatus)
    requires Inv(s) && c in s.ops && s.ops[c] == Recording(p, answer)
    ensures Inv(StepRecord(s, c, p, answer)) && Grows(s, StepRecord(s, c, p, answer))
  {
    assert OpTrue(s, s.ops[c]);
    assert PaymentOk(s.db.payments[p], s.db.invoices, s.answers);
    if answer == Paid {
      SettleKeeps(s, c, p);
    } else {
      PaymentSet(s, StepRecord(s, c, p, answer), c, p);
    }
  }

  lemma SettleKeeps(s: State, c: nat, p: nat)
    requires Inv(s) && c in s.ops && s.ops[c] == Recording(p, Paid)
    ensures Inv(StepRecord(s, c, p, Paid)) && Grows(s, StepRecord(s, c, p, Paid))
  {
    var s' := StepRecord(s, c, p, Paid);
    assert OpTrue(s, s.ops[c]);
    assert PaymentOk(s.db.payments[p], s.db.invoices, s.answers);
    var i := s.db.payments[p].invoice;
    assert InvoiceOk(s.db.invoices[i]);
    SettledInvoices(s.db.invoices, i, s'.db.invoices);
    SettledPayments(s, s', p);
    SettledProvenance(s.db, s'.db);
    assert Grows(s, s');
    OpsKeep(s, s', c);
    AwaitedKeeps(s, s', c);
  }

  lemma SettledInvoices(xs: seq<Invoice>, i: nat, ys: seq<Invoice>)
    requires i < |xs| && |ys| == |xs| && ys == xs[i := ys[i]] && InvoiceGrows(xs[i], ys[i]) && ys[i].status == Settled
    requires forall j | 0 <= j < |xs| :: InvoiceOk(xs[j])
    requires InvoiceOk(ys[i])
    ensures InvoicesGrow(xs, ys)
    ensures forall j | 0 <= j < |ys| :: InvoiceOk(ys[j]) && (xs[j].status == Settled ==> ys[j].status == Settled)
  {
  }

  lemma SettledPayments(s: State, s': State, p: nat)
    requires PaymentsOk(s) && p < |s.db.payments| && s'.answers == s.answers
    requires s.db.payments[p].session.Some? && s.db.payments[p].session.value in s.answers
    requires s.answers[s.db.payments[p].session.value] == Paid
    requires s'.db.payments == s.db.payments[p := s.db.payments[p].(status := Paid)]
    requires InvoicesGrow(s.db.invoices, s'.db.invoices) && s.db.payments[p].invoice < |s'.db.invoices|
    requires s'.db.invoices[s.db.payments[p].invoice].status == Settled
    ensures PaymentsOk(s') && PaymentsGrow(s.db.payments, s'.db.payments)
  {
  }

  lemma SettledProvenance(t: Tables, t': Tables)
    requires Provenance(t) && t'.subscription == t.subscription && t'.events == t.events && InvoicesGrow(t.invoices, t'.invoices)
    ensures Provenance(t')
  {
    if t.subscription.Some? {
      PaidForGrows(t.invoices, t'.invoices, TermsOf(t.subscription.value));
    }
  }

  // ---- Issuing ----

  lemma IssueKeeps(s: State, c: nat, op: Op)
    requires Inv(s) && c in s.ops && op == s.ops[c] && op.Issuing?
    ensures Inv(StepIssue(s, c, op)) && Grows(s, StepIssue(s, c, op))
  {
    assert OpTrue(s, op);
    var s' := StepIssue(s, c, op);
    var subtotal := Subtotal([Line(op.intent.quantity, op.unitAmount)]);
    AmountsAddUp(subtotal, op.discount, s.vatRate);
    if ComputeInvoiceAmounts(subtotal, op.discount, s.vatRate).Err? {
      QuietKeeps(s, s', c);
    } else {
      assert InvoiceOk(s'.db.invoices[|s.db.invoices|]);
      IssuedKeeps(s, s', c);
    }
  }

  lemma IssuedKeeps(s: State, s': State, c: nat)
    requires Inv(s) && OthersStay(s, s', c) && |s'.db.invoices| == |s.db.invoices| + 1
    requires s'.db == s.db.(invoices := s'.db.invoices) && s'.db.invoices[..|s.db.invoices|] == s.db.invoices
    requires s' == s.(db := s'.db, issuedFor := s'.issuedFor, ops := s'.ops) && InvoiceOk(s'.db.invoices[|s.db.invoices|])
    requires c in s'.ops && (s'.ops[c].LoadingPaid? || s'.ops[c].LoadingInvoice?)
    ensures Inv(s') && Grows(s, s')
  {
    forall i | 0 <= i < |s.db.invoices| ensures s'.db.invoices[i] == s.db.invoices[i] {
      assert s'.db.invoices[..|s.db.invoices|][i] == s'.db.invoices[i];
    }
    SameGrows(s, s');
    SettledProvenance(s.db, s'.db);
    forall i | 0 <= i < |s.db.payments| ensures PaymentOk(s'.db.payments[i], s'.db.invoices, s'.answers) {
      assert PaymentOk(s.db.payments[i], s.db.invoices, s.answers);
    }
    OpsKeep(s, s', c);
    AwaitedKeeps(s, s', c);
  }

  // ---- Steps on the subscription ----

  /** The subscription and the event log change; invoices at most in link and period. */
  lemma SubscriptionKeeps(s: State, s': State, c: nat)
    requires Inv(s) && OthersStay(s, s', c) && s'.clock == s.clock && s'.answers == s.answers
    requires s'.db.payments == s.db.payments && |s'.db.invoices| == |s.db.invoices|
    requires forall i | 0 <= i < |s.db.invoices| ::
               s'.db.invoices[i] == s.db.invoices[i].(linked := s'.db.invoices[i].linked, periodStart := s'.db.invoices[i].periodStart,
                                                      periodEnd := s'.db.invoices[i].periodEnd)
    requires SubscriptionsOk(s') && LapseOk(s')
    requires c in s'.ops ==> OpTrue(s', s'.ops[c]) && !s'.ops[c].AwaitingSession?
    ensures Inv(s') && Grows(s, s')
  {
    forall i | 0 <= i < |s.db.invoices| ensures InvoiceGrows(s.db.invoices[i], s'.db.invoices[i]) && InvoiceOk(s'.db.invoices[i]) {
      assert InvoiceOk(s.db.invoices[i]);
    }
    SameGrows(s, s');
    forall i | 0 <= i < |s.db.payments| ensures PaymentOk(s'.db.payments[i], s'.db.invoices, s'.answers) {
      assert PaymentOk(s.db.payments[i], s.db.invoices, s.answers);
      assert InvoiceGrows(s.db.invoices[s.db.payments[i].invoice], s'.db.invoices[s.db.payments[i].invoice]);
    }
    OpsKeep(s, s', c);
    AwaitedKeeps(s, s', c);
  }

  /** The event log gets one more event, which is not the start of a trial; the terms stay or are the free ones. */
  lemma LoggedProvenance(t: Tables, t': Tables, e: Event)
    requires Provenance(t) && EventsOk(t) && t'.events == t.events + [e] && t'.subscription.Some?
    requires e.kind != TrialStarted
    requires InvoicesGrow(t.invoices, t'.invoices)
    requires TermsOf(t'.subscription.value) == FREE_TERMS || PaidFor(t'.invoices, TermsOf(t'.subscription.value)) ||
             (t.subscription.Some? && TermsOf(t'.subscription.value) == TermsOf(t.subscription.value))
    ensures Provenance(t')
  {
    if t.subscription.Some? {
      PaidForGrows(t.invoices, t'.invoices, TermsOf(t.subscription.value));
    }
  }

  lemma LoggedEvents(t: Tables, t': Tables, e: Event)
    requires EventsOk(t) && t'.events == t.events + [e] && t'.subscription.Some?
    requires e.kind != TrialStarted || t.subscription.None?
    ensures EventsOk(t')
  {
  }

  lemma TrialKeeps(s: State, c: nat, op: Op)
    requires Inv(s) && c in s.ops && op == s.ops[c] && op.StartingTrial?
    ensures Inv(StepTrial(s, c, op)) && Grows(s, StepTrial(s, c, op))
  {
    assert OpTrue(s, op);
    var s' := StepTrial(s, c, op);
    if s.db.subscription.Some? {
      QuietKeeps(s, s', c);
    } else {
      LoggedEvents(s.db, s'.db, Event(TrialStarted, None, Some(op.plan)));
      SubscriptionKeeps(s, s', c);
    }
  }

  /** The subscription after `applyPaidInvoice`, the coupon aside. */
  lemma ApplyKeeps(s: State, c: nat, op: Op)
    requires Inv(s) && c in s.ops && op == s.ops[c] && op.Applying?
    ensures Inv(StepApply(s, c, op)) && Grows(s, StepApply(s, c, op))
  {
    assert OpTrue(s, op);
    var s' := StepApply(s, c, op);
    AppliedTables(s.db, op.invoice, op.intent, op.now, op.periodEnd, s.clock);
    SubscriptionKeeps(s, s', c);
  }

  lemma AppliedTables(t: Tables, invoice: nat, intent: Intent, now: int, periodEnd: int, clock: int)
    requires invoice < |t.invoices| && t.invoices[invoice].status == Settled && t.invoices[invoice].intent == Some(intent)
    requires intent.plan != FREE && now <= clock && now < periodEnd && Provenance(t) && EventsOk(t)
    requires t.subscription.Some? ==> SubscriptionOk(t.subscription.value, clock)
    ensures var t' := ApplyPaid(t, invoice, intent, now, periodEnd);
            && t'.payments == t.payments
            && t'.invoices == t.invoices[invoice := t.invoices[invoice].(linked := true, periodStart := Some(now), periodEnd := Some(periodEnd))]
            && t'.subscription.Some? && t'.subscription.value.status == Active
            && SubscriptionOk(t'.subscription.value, clock) && Provenance(t') && EventsOk(t')
  {
    var t' := ApplyPaid(t, invoice, intent, now, periodEnd);
    var e := Event(if t.subscription.Some? then Renewed else Activated, PlanOf(t.subscription), Some(intent.plan));
    assert t'.events == t.events + [e];
    assert SettledFor(t'.invoices[invoice], IntendedTerms(intent));
    LoggedEvents(t, t', e);
  }

  lemma CancelKeeps(s: State, c: nat, immediate: bool)
    requires Inv(s) && c in s.ops && s.ops[c] == Cancelling(immediate)
    ensures Inv(StepCancel(s, c, immediate)) && Grows(s, StepCancel(s, c, immediate))
  {
    var s' := StepCancel(s, c, immediate);
    if s.db.subscription.None? {
      QuietKeeps(s, s', c);
    } else {
      var e := Event(CanceledBy, Some(s.db.subscription.value.plan), None);
      LoggedProvenance(s.db, s'.db, e);
      LoggedEvents(s.db, s'.db, e);
      SubscriptionKeeps(s, s', c);
    }
  }

  lemma ResumeKeeps(s: State, c: nat)
    requires Inv(s) && c in s.ops && s.ops[c] == Resuming
    ensures Inv(StepResume(s, c)) && Grows(s, StepResume(s, c))
  {
    var s' := StepResume(s, c);
    if s.db.subscription.None? {
      QuietKeeps(s, s', c);
    } else {
      LoggedProvenance(s.db, s'.db, Event(Reactivated, None, None));
      LoggedEvents(s.db, s'.db, Event(Reactivated, None, None));
      SubscriptionKeeps(s, s', c);
    }
  }

  lemma GraceKeeps(s: State, c: nat)
    requires Inv(s) && c in s.ops && s.ops[c] == EnteringGrace
    ensures Inv(StepGrace(s, c)) && Grows(s, StepGrace(s, c))
  {
    var s' := StepGrace(s, c);
    if s.db.subscription.None? {
      QuietKeeps(s, s', c);
    } else {
      LoggedProvenance(s.db, s'.db, Event(PaymentFailed, None, None));
      LoggedEvents(s.db, s'.db, Event(PaymentFailed, None, None));
      SubscriptionKeeps(s, s', c);
    }
  }

  lemma DowngradeKeeps(s: State, c: nat, now: int)
    requires Inv(s) && c in s.ops && s.ops[c].Downgrading? && now == s.ops[c].now
    ensures Inv(StepDowngrade(s, c, now)) && Grows(s, StepDowngrade(s, c, now))
  {
    assert OpTrue(s, s.ops[c]);
    var s' := StepDowngrade(s, c, now);
    var e := Event(Downgraded, PlanOf(s.db.subscription), Some(FREE));
    LoggedProvenance(s.db, s'.db, e);
    LoggedEvents(s.db, s'.db, e);
    SubscriptionKeeps(s, s', c);
  }

  // ---- Any step, any run ----

  lemma BeginKeeps(s: State, c: nat, step: Step)
    requires Inv(s) && c !in s.ops
    ensures Inv(StepBegin(s, c, step)) && Grows(s, StepBegin(s, c, step))
  {
    if step.Tick? && s.clock <= step.time < FREE_UNTIL {
      TickKeeps(s, step.time);
    } else if step.GatewayDecides? && step.session !in s.answers && step.answer != Pending {
      DecideKeeps(s, c, step.session, step.answer);
    } else if step.CloseExpired? {
      CloseKeeps(s, c);
    } else if step.LoadForRenewal? {
      LoadRenewalKeeps(s, c);
    } else {
      LoadKeeps(s, c, step);
    }
  }

  lemma LoadRenewalKeeps(s: State, c: nat)
    requires Inv(s) && c !in s.ops
    ensures Inv(StepRenewal(s, c)) && Grows(s, StepRenewal(s, c))
  {
    QuietKeeps(s, StepRenewal(s, c), c);
  }

  lemma LoadKeeps(s: State, c: nat, step: Step)
    requires Inv(s) && c !in s.ops && !step.CloseExpired? && !step.LoadForRenewal?
    requires !(step.Tick? && s.clock <= step.time < FREE_UNTIL)
    requires !(step.GatewayDecides? && step.session !in s.answers && step.answer != Pending)
    ensures Inv(StepBegin(s, c, step)) && Grows(s, StepBegin(s, c, step))
  {
    if step.Checkout? {
      CheckoutKeeps(s, c, step);
    } else if step.LoadForConfirm? {
      QuietKeeps(s, StepConfirm(s, c, step.payment), c);
    } else if step.LoadForExpiry? {
      QuietKeeps(s, StepExpiry(s, c), c);
    } else {
      OtherLoadKeeps(s, c, step);
    }
  }

  lemma CheckoutKeeps(s: State, c: nat, step: Step)
    requires Inv(s) && c !in s.ops && step.Checkout?
    ensures Inv(StepBegin(s, c, step)) && Grows(s, StepBegin(s, c, step))
  {
    QuietKeeps(s, StepCheckout(s, c, step.plan, step.price, step.quantity, step.trialDays), c);
  }

  lemma OtherLoadKeeps(s: State, c: nat, step: Step)
    requires Inv(s) && c !in s.ops && !step.CloseExpired? && !step.LoadForRenewal? && !step.Checkout? && !step.LoadForConfirm? && !step.LoadForExpiry?
    requires !(step.Tick? && s.clock <= step.time < FREE_UNTIL)
    requires !(step.GatewayDecides? && step.session !in s.answers && step.answer != Pending)
    ensures Inv(StepBegin(s, c, step)) && Grows(s, StepBegin(s, c, step))
  {
    QuietKeeps(s, StepBegin(s, c, step), c);
  }

  lemma LoadPaidKeeps(s: State, c: nat, id: nat)
    requires Inv(s) && c in s.ops
    ensures Inv(StepLoadPaid(s, c, id)) && Grows(s, StepLoadPaid(s, c, id))
  {
    if id < |s.db.invoices| && s.db.invoices[id].intent.Some? {
      Calendar.NextPeriodIsLater(s.clock, s.db.invoices[id].intent.value.price.interval);
      assert InvoiceOk(s.db.invoices[id]);
    }
    QuietKeeps(s, StepLoadPaid(s, c, id), c);
  }

  lemma GoKeeps(s: State, c: nat, op: Op)
    requires Inv(s) && c in s.ops && op == s.ops[c]
    ensures Inv(StepGo(s, c, op)) && Grows(s, StepGo(s, c, op))
  {
    match op
    case StartingTrial(_, _, _, _, _) => TrialKeeps(s, c, op);
    case Issuing(_, _, _, _, _, _) => IssueKeeps(s, c, op);
    case LoadingPaid(id) => LoadPaidKeeps(s, c, id);
    case Applying(_, _, _, _) => ApplyKeeps(s, c, op);
    case CreatingPayment(_, _) => CreateKeeps(s, c, op);
    case EnteringGrace => GraceKeeps(s, c);
    case Recording(p, answer) => RecordKeeps(s, c, p, answer);
    case Cancelling(immediate) => CancelKeeps(s, c, immediate);
    case Downgrading(now, _) => DowngradeKeeps(s, c, now);
    case Resuming => ResumeKeeps(s, c);
    case _ => ReadKeeps(s, c, op);
  }

  lemma ReadKeeps(s: State, c: nat, op: Op)
    requires Inv(s) && c in s.ops && op == s.ops[c]
    requires op.Renewing? || op.LoadingInvoice? || op.Asking? || op.Quoting? || op.AwaitingSession?
    ensures Inv(StepGo(s, c, op)) && Grows(s, StepGo(s, c, op))
  {
    assert OpTrue(s, op);
    if op.Quoting? || op.AwaitingSession? {
      SameGrows(s, s);
    } else {
      QuietKeeps(s, StepGo(s, c, op), c);
    }
  }

  lemma NextKeeps(s: State, c: nat, step: Step)
    requires Inv(s)
    ensures Inv(Next(s, c, step)) && Grows(s, Next(s, c, step))
  {
    if c !in s.ops {
      BeginKeeps(s, c, step);
    } else {
      var op := s.ops[c];
      if step.Go? {
        GoKeeps(s, c, op);
      } else if step.SessionOpened? && op.AwaitingSession? {
        SessionKeeps(s, c, op, step.session, step.expiresAt);
      } else if step.SessionRefused? && op.AwaitingSession? {
        RefusedKeeps(s, c, op);
      } else {
        QuietOn(s, c, op, step);
      }
    }
  }

  lemma QuietOn(s: State, c: nat, op: Op, step: Step)
    requires Inv(s) && c in s.ops && op == s.ops[c]
    requires !step.Go? && !(step.SessionOpened? && op.AwaitingSession?) && !(step.SessionRefused? && op.AwaitingSession?)
    ensures Inv(StepOn(s, c, op, step)) && Grows(s, StepOn(s, c, op, step))
  {
    assert OpTrue(s, op);
    if step.Abandon? || (step.LoadQuote? && op.Quoting?) {
      QuietKeeps(s, StepOn(s, c, op, step), c);
    } else {
      SameGrows(s, s);
    }
  }

  lemma GrowsOn(a: State, b: State, c: State)
    requires Grows(a, b) && Grows(b, c)
    ensures Grows(a, c)
  {
  }

  lemma {:induction false} RunKeeps(s: State, steps: seq<(nat, Step)>)
    requires Inv(s)
    ensures Inv(Run(s, steps)) && Grows(s, Run(s, steps))
  {
    if steps == [] {
      SameGrows(s, s);
    } else {
      var n := |steps| - 1;
      RunKeeps(s, steps[..n]);
      NextKeeps(Run(s, steps[..n]), steps[n].0, steps[n].1);
      GrowsOn(s, Run(s, steps[..n]), Run(s, steps));
    }
  }

  lemma RowsAreSound(s: State)
    requires Inv(s)
    ensures Sound(s.db, s.clock)
  {
    forall i | 0 <= i < |s.db.payments| ensures PaymentFits(s.db.payments[i], s.db.invoices) {
      assert PaymentOk(s.db.payments[i], s.db.invoices, s.answers);
    }
  }

  lemma RunInv(coupons: map<string, int>, clock: int, vatRate: nat, steps: seq<(nat, Step)>)
    requires clock < FREE_UNTIL
    ensures var now := Run(Start(coupons, clock, vatRate), steps); Inv(now) && Sound(now.db, now.clock)
  {
    StartInv(coupons, clock, vatRate);
    RunKeeps(Start(coupons, clock, vatRate), steps);
    RowsAreSound(Run(Start(coupons, clock, vatRate), steps));
  }
}
