/** Renewal invoices: when a period gets two, and when a lapsed period starts its grace. */
module BillingRenewals {
  import opened Base
  import opened Pricing
  import opened BillingTables
  import opened BillingProtocol
  import opened BillingSafety

  // ---- What is known of renewal invoices in every run ----

  /** Client between loading the subscription and issuing the renewal of the period that ends at `x`. */
  predicate Renews(op: Op, x: int) {
    (op.Renewing? && op.periodStart == x) || (op.Issuing? && op.due == Some(x))
  }

  predicate OneRenewal(s: State, x: int) {
    forall c, d | c in s.ops && d in s.ops && Renews(s.ops[c], x) && Renews(s.ops[d], x) :: c == d
  }

  /** The i-th invoice was issued to renew `x` and has not been applied. */
  predicate Unapplied(s: State, x: int, i: nat) {
    i < |s.issuedFor| && s.issuedFor[i] == Some(x) && i !in s.applied
  }

  predicate AppliedAllFor(s: State, x: int) {
    forall i: nat | i < |s.issuedFor| :: !Unapplied(s, x, i)
  }

  /** Two invoices for one period, the earlier of them unapplied. */
  predicate Doubled(s: State, x: int) {
    exists i, j | 0 <= i < j < |s.issuedFor| :: Unapplied(s, x, i) && s.issuedFor[j] == Some(x)
  }

  /** An unapplied renewal names the subscription and starts where the period ended; only renewals carry a period end. */
  predicate RecordsOk(s: State) {
    && |s.issuedFor| == |s.db.invoices|
    && (forall i | 0 <= i < |s.issuedFor| && s.issuedFor[i].Some? && i !in s.applied ::
          s.db.invoices[i].linked && s.db.invoices[i].periodStart == s.issuedFor[i])
    && (forall c | c in s.ops && s.ops[c].Issuing? && s.ops[c].due.Some? :: s.ops[c].linked)
  }

  /** Records stay, and more may be applied. */
  predicate RecordsGrow(s: State, s': State) {
    && |s.issuedFor| <= |s'.issuedFor| && s'.issuedFor[..|s.issuedFor|] == s.issuedFor && s.applied <= s'.applied
  }

  lemma SameRecords(s: State, s': State, c: nat)
    requires RecordsOk(s) && OthersStay(s, s', c) && s'.issuedFor == s.issuedFor && s.applied <= s'.applied
    requires |s'.db.invoices| == |s.db.invoices|
    requires forall i | 0 <= i < |s.db.invoices| && i !in s'.applied ::
               s'.db.invoices[i].linked == s.db.invoices[i].linked && s'.db.invoices[i].periodStart == s.db.invoices[i].periodStart
    requires c in s'.ops && s'.ops[c].Issuing? && s'.ops[c].due.Some? ==> s'.ops[c].linked
    ensures RecordsOk(s') && RecordsGrow(s, s')
  {
  }

  lemma IssueRecords(s: State, c: nat, op: Op)
    requires RecordsOk(s) && c in s.ops && op == s.ops[c] && op.Issuing?
    ensures RecordsOk(StepIssue(s, c, op)) && RecordsGrow(s, StepIssue(s, c, op))
  {
    var s' := StepIssue(s, c, op);
    if s'.db.invoices == s.db.invoices {
      SameRecords(s, s', c);
    }
  }

  lemma GoRecords(s: State, c: nat, op: Op)
    requires RecordsOk(s) && c in s.ops && op == s.ops[c]
    ensures RecordsOk(StepGo(s, c, op)) && RecordsGrow(s, StepGo(s, c, op))
  {
    if op.Issuing? {
      IssueRecords(s, c, op);
    } else if op.Applying? {
      SameRecords(s, StepApply(s, c, op), c);
    } else if op.LoadingPaid? || op.LoadingInvoice? || op.CreatingPayment? || op.Asking? || op.Recording? {
      PaymentRecords(s, c, op);
    } else {
      SubscriptionRecords(s, c, op);
    }
  }

  lemma PaymentRecords(s: State, c: nat, op: Op)
    requires RecordsOk(s) && c in s.ops && op == s.ops[c]
    requires op.LoadingPaid? || op.LoadingInvoice? || op.CreatingPayment? || op.Asking? || op.Recording?
    ensures RecordsOk(StepGo(s, c, op)) && RecordsGrow(s, StepGo(s, c, op))
  {
    if op.Recording? {
      SameRecords(s, StepRecord(s, c, op.payment, op.answer), c);
    } else {
      SameRecords(s, StepGo(s, c, op), c);
    }
  }

  lemma SubscriptionRecords(s: State, c: nat, op: Op)
    requires RecordsOk(s) && c in s.ops && op == s.ops[c]
    requires !op.Issuing? && !op.Applying? && !op.LoadingPaid? && !op.LoadingInvoice? && !op.CreatingPayment? && !op.Asking? && !op.Recording?
    ensures RecordsOk(StepGo(s, c, op)) && RecordsGrow(s, StepGo(s, c, op))
  {
    SameRecords(s, StepGo(s, c, op), c);
  }

  lemma OnRecords(s: State, c: nat, op: Op, step: Step)
    requires RecordsOk(s) && c in s.ops && op == s.ops[c] && !step.Go?
    ensures RecordsOk(StepOn(s, c, op, step)) && RecordsGrow(s, StepOn(s, c, op, step))
  {
    SameRecords(s, StepOn(s, c, op, step), c);
  }

  lemma BeginRecords(s: State, c: nat, step: Step)
    requires RecordsOk(s) && c !in s.ops
    ensures RecordsOk(StepBegin(s, c, step)) && RecordsGrow(s, StepBegin(s, c, step))
  {
    if step.LoadForRenewal? {
      SameRecords(s, StepRenewal(s, c), c);
    } else if step.Checkout? {
      SameRecords(s, StepCheckout(s, c, step.plan, step.price, step.quantity, step.trialDays), c);
    } else {
      OtherBeginRecords(s, c, step);
    }
  }

  lemma OtherBeginRecords(s: State, c: nat, step: Step)
    requires RecordsOk(s) && c !in s.ops && !step.LoadForRenewal? && !step.Checkout?
    ensures RecordsOk(StepBegin(s, c, step)) && RecordsGrow(s, StepBegin(s, c, step))
  {
    SameRecords(s, StepBegin(s, c, step), c);
  }

  lemma NextRecords(s: State, c: nat, step: Step)
    requires RecordsOk(s)
    ensures RecordsOk(Next(s, c, step)) && RecordsGrow(s, Next(s, c, step))
  {
    if c !in s.ops {
      BeginRecords(s, c, step);
    } else if step.Go? {
      GoRecords(s, c, s.ops[c]);
    } else {
      OnRecords(s, c, s.ops[c], step);
    }
  }

  lemma {:induction false} RunRecords(s: State, steps: seq<(nat, Step)>)
    requires RecordsOk(s)
    ensures RecordsOk(Run(s, steps)) && RecordsGrow(s, Run(s, steps))
  {
    if steps != [] {
      var n := |steps| - 1;
      RunRecords(s, steps[..n]);
      NextRecords(Run(s, steps[..n]), steps[n].0, steps[n].1);
      RecordsGrowOn(s, Run(s, steps[..n]), Run(s, steps));
    }
  }

  lemma RecordsGrowOn(a: State, b: State, c: State)
    requires RecordsGrow(a, b) && RecordsGrow(b, c)
    ensures RecordsGrow(a, c)
  {
    assert c.issuedFor[..|a.issuedFor|] == c.issuedFor[..|b.issuedFor|][..|a.issuedFor|];
  }

  // ---- When a second invoice is issued ----

  predicate NotBy(steps: seq<(nat, Step)>, c: nat) {
    forall i | 0 <= i < |steps| :: steps[i].0 != c
  }

  lemma {:induction false} HeldOn(s: State, steps: seq<(nat, Step)>, c: nat)
    requires c in s.ops && NotBy(steps, c)
    ensures c in Run(s, steps).ops && Run(s, steps).ops[c] == s.ops[c] && Run(s, steps).vatRate == s.vatRate
  {
    if steps != [] {
      HeldOn(s, steps[..|steps| - 1], c);
      OthersHeld(Run(s, steps[..|steps| - 1]), steps[|steps| - 1].0, steps[|steps| - 1].1, c);
    }
  }

  lemma OthersHeld(s: State, d: nat, step: Step, c: nat)
    requires c in s.ops && c != d
    ensures c in Next(s, d, step).ops && Next(s, d, step).ops[c] == s.ops[c] && Next(s, d, step).vatRate == s.vatRate
  {
    if d in s.ops && step.Go? {
      OthersHeldGo(s, d, s.ops[d], c);
    }
  }

  lemma OthersHeldGo(s: State, d: nat, op: Op, c: nat)
    requires c in s.ops && c != d
    ensures c in StepGo(s, d, op).ops && StepGo(s, d, op).ops[c] == s.ops[c] && StepGo(s, d, op).vatRate == s.vatRate
  {
  }

  /** Passing the check means that every renewal of the period so far has been applied. */
  lemma CheckedMeansApplied(s: State, x: int)
    requires RecordsOk(s) && !AlreadyIssued(s.db, x)
    ensures AppliedAllFor(s, x)
  {
    forall i: nat | i < |s.issuedFor| ensures !Unapplied(s, x, i) {
      assert !(s.db.invoices[i].linked && s.db.invoices[i].periodStart == Some(x));
    }
  }

  lemma IssueAppends(s: State, c: nat, op: Op)
    requires c in s.ops && op == s.ops[c] && op.Issuing? && op.unitAmount >= 0 && op.intent.quantity >= 0
    ensures StepIssue(s, c, op).issuedFor == s.issuedFor + [op.due] && StepIssue(s, c, op).applied == s.applied
    ensures |StepIssue(s, c, op).db.invoices| == |s.db.invoices| + 1
  {
    var line := Line(op.intent.quantity, op.unitAmount);
    assert [line][..0] == [];
    assert Subtotal([line]) == op.unitAmount * op.intent.quantity;
    TimesMonotone(op.intent.quantity, 0, op.unitAmount);
  }

  /**
   * A renewal that found nothing issued makes its invoice the second for the period, with an unapplied
   * one before it, exactly when another client issued one between the check and the issue that is
   * still unapplied.
   */
  lemma SecondInvoiceExactly(s: State, c: nat, between: seq<(nat, Step)>, x: int)
    requires RecordsOk(s) && c in s.ops && s.ops[c].Renewing? && s.ops[c].periodStart == x && !AlreadyIssued(s.db, x)
    requires s.ops[c].intent.price.amount >= 0 && s.ops[c].intent.quantity >= 0 && NotBy(between, c)
    ensures var checked := Next(s, c, Go);
            var before := Run(checked, between);
            var after := Next(before, c, Go);
            && after.issuedFor == before.issuedFor + [Some(x)] && after.applied == before.applied
            && ((exists i: nat :: i < |before.issuedFor| && Unapplied(after, x, i)) <==>
                (exists i: nat :: |checked.issuedFor| <= i && Unapplied(before, x, i)))
  {
    var checked := Next(s, c, Go);
    var before := Run(checked, between);
    assert checked == SetOp(s, c, Issuing(s.ops[c].intent, s.ops[c].intent.price.amount, None, true, Some(x), Some(s.ops[c].periodEnd)));
    HeldOn(checked, between, c);
    GoRecords(s, c, s.ops[c]);
    RunRecords(checked, between);
    CheckedMeansApplied(s, x);
    var after := Next(before, c, Go);
    IssueAppends(before, c, before.ops[c]);
    forall i: nat | i < |checked.issuedFor| ensures !Unapplied(before, x, i) {
      assert before.issuedFor[..|checked.issuedFor|][i] == checked.issuedFor[i];
      assert !Unapplied(s, x, i);
    }
    forall i: nat | i < |before.issuedFor| ensures Unapplied(after, x, i) <==> Unapplied(before, x, i) {
    }
  }

  // ---- Renewals that do not overlap ----

  /** Nobody is about to issue a second one, and there is none. */
  predicate SingleFor(s: State, x: int) {
    && !Doubled(s, x)
    && forall c | c in s.ops && s.ops[c].Issuing? && s.ops[c].due == Some(x) :: AppliedAllFor(s, x)
  }

  lemma SameSingle(s: State, s': State, c: nat, x: int)
    requires SingleFor(s, x) && OthersStay(s, s', c) && s'.issuedFor == s.issuedFor && s.applied <= s'.applied
    requires c in s'.ops && s'.ops[c].Issuing? && s'.ops[c].due == Some(x) ==> AppliedAllFor(s, x)
    ensures SingleFor(s', x)
  {
    forall i: nat | i < |s.issuedFor| && Unapplied(s', x, i) ensures Unapplied(s, x, i) {
    }
  }

  lemma IssueSingle(s: State, c: nat, op: Op, x: int)
    requires SingleFor(s, x) && OneRenewal(s, x) && c in s.ops && op == s.ops[c] && op.Issuing?
    ensures SingleFor(StepIssue(s, c, op), x)
  {
    var s' := StepIssue(s, c, op);
    if s'.issuedFor == s.issuedFor {
      SameSingle(s, s', c, x);
    } else {
      assert s'.issuedFor == s.issuedFor + [op.due] && s'.applied == s.applied;
      if op.due == Some(x) {
        assert Renews(op, x) && AppliedAllFor(s, x);
      }
      AppendSingle(s, s', op.due, x);
      forall d | d in s'.ops && s'.ops[d].Issuing? && s'.ops[d].due == Some(x) ensures AppliedAllFor(s', x) {
        assert d in s.ops && s'.ops[d] == s.ops[d] && Renews(s.ops[d], x) && AppliedAllFor(s, x);
        assert d != c && op.due != Some(x);
      }
    }
  }

  lemma AppendSingle(s: State, s': State, due: Option<int>, x: int)
    requires !Doubled(s, x) && s'.issuedFor == s.issuedFor + [due] && s'.applied == s.applied
    requires due == Some(x) ==> AppliedAllFor(s, x)
    ensures !Doubled(s', x) && (due != Some(x) && AppliedAllFor(s, x) ==> AppliedAllFor(s', x))
  {
    forall i: nat | i < |s.issuedFor| ensures Unapplied(s', x, i) <==> Unapplied(s, x, i) {
    }
  }

  lemma GoSingle(s: State, c: nat, op: Op, x: int)
    requires RecordsOk(s) && SingleFor(s, x) && OneRenewal(s, x) && c in s.ops && op == s.ops[c]
    ensures SingleFor(StepGo(s, c, op), x)
  {
    if op.Issuing? {
      IssueSingle(s, c, op, x);
    } else if op.Renewing? {
      if !AlreadyIssued(s.db, op.periodStart) {
        CheckedMeansApplied(s, op.periodStart);
      }
      SameSingle(s, StepCheckIssued(s, c, op), c, x);
    } else {
      OtherGoSingle(s, c, op, x);
    }
  }

  lemma OtherGoSingle(s: State, c: nat, op: Op, x: int)
    requires SingleFor(s, x) && c in s.ops && op == s.ops[c] && !op.Issuing? && !op.Renewing?
    ensures SingleFor(StepGo(s, c, op), x)
  {
    OtherGoKeepsRecords(s, c, op);
    SameSingle(s, StepGo(s, c, op), c, x);
  }

  lemma OtherGoKeepsRecords(s: State, c: nat, op: Op)
    requires c in s.ops && op == s.ops[c] && !op.Issuing? && !op.Renewing?
    ensures var s' := StepGo(s, c, op);
            && s'.issuedFor == s.issuedFor && s.applied <= s'.applied && OthersStay(s, s', c)
            && (c in s'.ops ==> !s'.ops[c].Issuing?)
  {
  }

  lemma NextSingle(s: State, c: nat, step: Step, x: int)
    requires RecordsOk(s) && SingleFor(s, x) && OneRenewal(s, x)
    ensures SingleFor(Next(s, c, step), x)
  {
    if c !in s.ops {
      BeginKeepsRecords(s, c, step);
      SameSingle(s, StepBegin(s, c, step), c, x);
    } else if step.Go? {
      GoSingle(s, c, s.ops[c], x);
    } else {
      OnKeepsRecords(s, c, s.ops[c], step);
      SameSingle(s, StepOn(s, c, s.ops[c], step), c, x);
    }
  }

  lemma BeginKeepsRecords(s: State, c: nat, step: Step)
    requires c !in s.ops
    ensures var s' := StepBegin(s, c, step);
            && s'.issuedFor == s.issuedFor && s'.applied == s.applied && OthersStay(s, s', c)
            && (c in s'.ops ==> !s'.ops[c].Issuing?)
  {
  }

  lemma OnKeepsRecords(s: State, c: nat, op: Op, step: Step)
    requires c in s.ops && op == s.ops[c] && !step.Go?
    ensures var s' := StepOn(s, c, op, step);
            && s'.issuedFor == s.issuedFor && s'.applied == s.applied && OthersStay(s, s', c)
            && (c in s'.ops && s'.ops[c].Issuing? && s'.ops[c].due.Some? ==> s'.ops[c] == op)
  {
  }

  lemma {:induction false} RunSingle(s: State, steps: seq<(nat, Step)>, x: int)
    requires RecordsOk(s) && SingleFor(s, x)
    requires forall k | 0 <= k < |steps| :: OneRenewal(Run(s, steps[..k]), x)
    ensures SingleFor(Run(s, steps), x)
  {
    if steps != [] {
      var n := |steps| - 1;
      forall k | 0 <= k < n ensures OneRenewal(Run(s, steps[..n][..k]), x) {
        assert steps[..n][..k] == steps[..k];
      }
      RunSingle(s, steps[..n], x);
      RunRecords(s, steps[..n]);
      NextSingle(Run(s, steps[..n]), steps[n].0, steps[n].1, x);
    }
  }

  /**
   * As long as no two clients are renewing the same period at once, whatever else goes on, a second
   * invoice for it is issued only after every earlier one has been applied.
   */
  lemma RenewedOnce(coupons: map<string, int>, clock: int, vatRate: nat, steps: seq<(nat, Step)>, x: int)
    requires forall k | 0 <= k < |steps| :: OneRenewal(Run(Start(coupons, clock, vatRate), steps[..k]), x)
    ensures !Doubled(Run(Start(coupons, clock, vatRate), steps), x)
  {
    RunSingle(Start(coupons, clock, vatRate), steps, x);
  }

  /** And as soon as two have passed the check for one period, their next steps give it two invoices. */
  lemma OverlapDoubles(s: State, c: nat, d: nat, x: int)
    requires RecordsOk(s) && c != d && c in s.ops && d in s.ops
    requires s.ops[c].Issuing? && s.ops[c].due == Some(x) && s.ops[c].unitAmount >= 0 && s.ops[c].intent.quantity >= 0
    requires s.ops[d].Issuing? && s.ops[d].due == Some(x) && s.ops[d].unitAmount >= 0 && s.ops[d].intent.quantity >= 0
    requires forall i | i in s.applied :: i < |s.issuedFor|
    ensures Doubled(Next(Next(s, c, Go), d, Go), x)
  {
    var first := Next(s, c, Go);
    IssueAppends(s, c, s.ops[c]);
    OthersHeldGo(s, c, s.ops[c], d);
    IssueAppends(first, d, first.ops[d]);
    var after := Next(first, d, Go);
    assert after.issuedFor == s.issuedFor + [Some(x), Some(x)];
    assert Unapplied(after, x, |s.issuedFor|);
    assert after.issuedFor[|s.issuedFor| + 1] == Some(x);
  }

  // ---- Grace ----

  predicate Renewable(subscription: Option<Subscription>) {
    && subscription.Some? && subscription.value.price.Some?
    && !subscription.value.cancelAtPeriodEnd && subscription.value.status != Canceled
  }

  /** `prepareRenewal` up to issuing and reading the invoice and creating a payment. */
  function RenewalCall(s: State, c: nat): State {
    Next(Next(Next(Next(Next(s, c, LoadForRenewal), c, Go), c, Go), c, Go), c, Go)
  }

  function SessionAnswer(granted: bool, session: string, expiresAt: int): Step {
    if granted then SessionOpened(session, expiresAt) else SessionRefused
  }

  lemma RenewalLoaded(s: State, c: nat)
    requires c !in s.ops && Renewable(s.db.subscription)
    ensures var x := s.db.subscription.value;
            var loaded := Next(s, c, LoadForRenewal);
            && c in loaded.ops && loaded == SetOp(s, c, loaded.ops[c]) && loaded.ops[c].Renewing?
            && loaded.ops[c].periodStart == x.periodEnd && loaded.ops[c].intent == Intent(x.plan, x.price.value, x.quantity, None)
  {
  }

  lemma Idle(s: State, c: nat)
    requires c !in s.ops
    ensures Next(s, c, Go) == s && Next(s, c, SessionRefused) == s
    ensures forall session, expiresAt :: Next(s, c, SessionOpened(session, expiresAt)) == s
  {
  }

  lemma NoRenewal(s: State, c: nat)
    requires c !in s.ops && Renewable(s.db.subscription) && AlreadyIssued(s.db, s.db.subscription.value.periodEnd)
    ensures RenewalCall(s, c) == s
  {
    RenewalLoaded(s, c);
    var loaded := Next(s, c, LoadForRenewal);
    assert Next(loaded, c, Go).ops == s.ops;
    Idle(s, c);
  }

  /** What issuing leads to, by the amount of the line. */
  lemma IssueLeads(s: State, c: nat)
    requires c in s.ops && s.ops[c].Issuing? && s.ops[c].discount.None?
    ensures var op := s.ops[c];
            var after := Next(s, c, Go);
            && (op.unitAmount * op.intent.quantity < 0 ==> after == Drop(s, c))
            && (op.unitAmount * op.intent.quantity == 0 ==> c in after.ops && after.ops[c].LoadingPaid?)
            && (op.unitAmount * op.intent.quantity > 0 ==>
                  && after.ops == s.ops[c := LoadingInvoice(|s.db.invoices|, op.due)] && after.clock == s.clock
                  && after.db.payments == s.db.payments && |after.db.invoices| == |s.db.invoices| + 1)
  {
    var op := s.ops[c];
    var line := Line(op.intent.quantity, op.unitAmount);
    assert [line][..0] == [];
    assert Subtotal([line]) == op.unitAmount * op.intent.quantity;
    if Subtotal([line]) >= 0 {
      CouponNeverRaises(Subtotal([line]), None, s.vatRate);
    }
  }

  /** An invoice of zero is applied, or the call ends; either way no session is opened. */
  lemma ZeroApplied(s: State, c: nat)
    requires c in s.ops && s.ops[c].LoadingPaid?
    ensures c !in Next(Next(s, c, Go), c, Go).ops
  {
    var read := Next(s, c, Go);
    LoadedPaid(s, c, s.ops[c].invoice);
    if c in read.ops {
      AppliedEnds(read, c, read.ops[c]);
    }
  }

  lemma LoadedPaid(s: State, c: nat, id: nat)
    ensures c in StepLoadPaid(s, c, id).ops ==> StepLoadPaid(s, c, id).ops[c].Applying?
  {
  }

  lemma AppliedEnds(s: State, c: nat, op: Op)
    requires op.Applying?
    ensures c !in StepGo(s, c, op).ops
  {
  }

  lemma FreshInvoiceOpens(s: State, c: nat, invoice: nat, due: Option<int>)
    requires c in s.ops && s.ops[c] == LoadingInvoice(invoice, due) && invoice < |s.db.invoices|
    requires forall p | 0 <= p < |s.db.payments| :: s.db.payments[p].invoice != invoice
    ensures var awaiting := Next(Next(s, c, Go), c, Go);
            && c in awaiting.ops && awaiting.ops[c] == AwaitingSession(|s.db.payments|, due)
            && |awaiting.db.payments| == |s.db.payments| + 1 && awaiting.clock == s.clock
  {
    var creating := Next(s, c, Go);
    assert !HasReusable(s.db, invoice, s.clock);
    assert creating == SetOp(s, c, CreatingPayment(invoice, due));
  }

  lemma SessionEnds(s: State, c: nat, x: int, granted: bool, session: string, expiresAt: int)
    requires c in s.ops && s.ops[c].AwaitingSession? && s.ops[c].due == Some(x) && s.ops[c].payment < |s.db.payments| && x <= s.clock
    ensures var after := Next(s, c, SessionAnswer(granted, session, expiresAt));
            (c in after.ops && after.ops[c] == EnteringGrace) <==> granted
  {
  }

  /**
   * A renewal prepared after its period has ended goes on to the grace period exactly when nothing was
   * issued for it yet, there is something to pay, and the payment session is opened.
   */
  lemma GraceReachedExactly(s: State, c: nat, granted: bool, session: string, expiresAt: int)
    requires Inv(s) && c !in s.ops && Renewable(s.db.subscription) && s.db.subscription.value.periodEnd <= s.clock
    ensures var x := s.db.subscription.value;
            var after := Next(RenewalCall(s, c), c, SessionAnswer(granted, session, expiresAt));
            (c in after.ops && after.ops[c] == EnteringGrace) <==>
            !AlreadyIssued(s.db, x.periodEnd) && x.price.value.amount * x.quantity > 0 && granted
  {
    var x := s.db.subscription.value;
    if AlreadyIssued(s.db, x.periodEnd) {
      NoRenewal(s, c);
      Idle(s, c);
    } else {
      RenewalLoaded(s, c);
      var loaded := Next(s, c, LoadForRenewal);
      var checked := Next(loaded, c, Go);
      assert checked.ops[c] == Issuing(loaded.ops[c].intent, x.price.value.amount, None, true, Some(x.periodEnd), Some(loaded.ops[c].periodEnd));
      GraceFromIssue(s, checked, c, granted, session, expiresAt);
    }
  }

  lemma GraceFromIssue(s: State, checked: State, c: nat, granted: bool, session: string, expiresAt: int)
    requires Inv(s) && c in checked.ops && checked == SetOp(s, c, checked.ops[c]) && checked.ops[c].Issuing?
    requires checked.ops[c].discount.None? && checked.ops[c].due.Some? && checked.ops[c].due.value <= s.clock
    ensures var after := Next(Next(Next(Next(checked, c, Go), c, Go), c, Go), c, SessionAnswer(granted, session, expiresAt));
            (c in after.ops && after.ops[c] == EnteringGrace) <==>
            checked.ops[c].unitAmount * checked.ops[c].intent.quantity > 0 && granted
  {
    var op := checked.ops[c];
    var issued := Next(checked, c, Go);
    IssueLeads(checked, c);
    if op.unitAmount * op.intent.quantity < 0 {
      Idle(issued, c);
    } else if op.unitAmount * op.intent.quantity == 0 {
      ZeroApplied(issued, c);
      Idle(Next(Next(issued, c, Go), c, Go), c);
    } else {
      NoPaymentsYet(s);
      FreshInvoiceOpens(issued, c, |s.db.invoices|, op.due);
      SessionEnds(Next(Next(issued, c, Go), c, Go), c, op.due.value, granted, session, expiresAt);
    }
  }

  lemma NoPaymentsYet(s: State)
    requires Inv(s)
    ensures forall p | 0 <= p < |s.db.payments| :: s.db.payments[p].invoice < |s.db.invoices|
  {
    forall p | 0 <= p < |s.db.payments| ensures s.db.payments[p].invoice < |s.db.invoices| {
      assert PaymentOk(s.db.payments[p], s.db.invoices, s.answers);
    }
  }
}
