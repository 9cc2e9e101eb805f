/** What the calls of the billing protocol come to when nobody else moves in between. */
module BillingCalls {
  import opened Base
  import opened BillingTables
  import opened BillingProtocol
  import Calendar

  /** Refused exactly without a subscription or after an immediate cancellation; otherwise scheduled, or free at once. */
  lemma CancelUndisturbed(s: State, c: nat, immediate: bool) returns (loaded: State, canceled: State, after: State)
    requires c !in s.ops
    ensures loaded == Next(s, c, LoadForCancel(immediate)) && canceled == Next(loaded, c, Go) && after == Next(canceled, c, Go)
    ensures c !in after.ops && after.db.invoices == s.db.invoices && after.db.payments == s.db.payments
    ensures var refused := s.db.subscription.None? || s.db.subscription.value.status == Canceled;
            if refused then after.db == s.db
            else
              && after.db.subscription.Some?
              && var x, y := s.db.subscription.value, after.db.subscription.value;
                 if immediate then TermsOf(y) == FREE_TERMS && y.status == Active && y.canceledAt == Some(s.clock)
                 else y == x.(cancelAtPeriodEnd := true, canceledAt := Some(s.clock))
  {
    loaded := Next(s, c, LoadForCancel(immediate));
    canceled := Next(loaded, c, Go);
    after := Next(canceled, c, Go);
  }

  /** A cancellation is taken back exactly while it is scheduled and the period has not ended. */
  lemma ResumeUndisturbed(s: State, c: nat) returns (loaded: State, after: State)
    requires c !in s.ops
    ensures loaded == Next(s, c, LoadForResume) && after == Next(loaded, c, Go) && c !in after.ops
    ensures var sub := s.db.subscription;
            if sub.Some? && sub.value.cancelAtPeriodEnd && sub.value.periodEnd > s.clock
            then after.db.subscription == Some(sub.value.(cancelAtPeriodEnd := false, canceledAt := None))
            else after.db == s.db
  {
    loaded := Next(s, c, LoadForResume);
    after := Next(loaded, c, Go);
  }

  /** The worker's closing of expired payments voids exactly those that are pending past their expiry. */
  lemma ExpiredClosed(s: State, c: nat, p: nat)
    requires c !in s.ops && p < |s.db.payments|
    ensures var t, x := Next(s, c, CloseExpired).db, s.db.payments[p];
            && |t.payments| == |s.db.payments| && t.invoices == s.db.invoices && t.subscription == s.db.subscription
            && t.payments[p] == if x.status == Pending && x.expiresAt.Some? && x.expiresAt.value < s.clock then x.(status := Voided) else x
  {
  }

  /** What the gateway has finally said of the payment's session, if anything. */
  function AnswerFor(s: State, x: Payment): Option<PaymentStatus> {
    if x.session.Some? && x.session.value in s.answers then Some(s.answers[x.session.value]) else None
  }

  /** The subscription has what the invoice was for, from now on. */
  predicate Applied(s: State, t: Tables, invoice: nat) {
    && invoice < |s.db.invoices| && s.db.invoices[invoice].intent.Some? && t.subscription.Some?
    && var intent, x := s.db.invoices[invoice].intent.value, t.subscription.value;
       && TermsOf(x) == IntendedTerms(intent) && x.status == Active && x.periodStart == s.clock
       && x.periodEnd == Calendar.NextPeriod(s.clock, intent.price.interval)
  }

  lemma RowsApplied(t: Tables, invoice: nat, intent: Intent, now: int, periodEnd: int) returns (t': Tables)
    requires invoice < |t.invoices|
    ensures t' == ApplyPaid(t, invoice, intent, now, periodEnd) && t'.subscription.Some? && t'.payments == t.payments
    ensures var x := t'.subscription.value;
            TermsOf(x) == IntendedTerms(intent) && x.status == Active && x.periodStart == now && x.periodEnd == periodEnd
    ensures |t'.invoices| == |t.invoices| && t'.invoices[invoice].status == t.invoices[invoice].status
  {
    t' := ApplyPaid(t, invoice, intent, now, periodEnd);
  }

  predicate CanApply(t: Tables, invoice: nat) {
    invoice < |t.invoices| && t.invoices[invoice].status == Settled && t.invoices[invoice].intent.Some?
  }

  lemma PaidLoaded(s: State, c: nat, invoice: nat) returns (loaded: State)
    requires c in s.ops && s.ops[c] == LoadingPaid(invoice) && invoice < |s.db.invoices|
    ensures loaded == Next(s, c, Go) && loaded.db == s.db && loaded.clock == s.clock
    ensures if CanApply(s.db, invoice)
            then
              var intent := s.db.invoices[invoice].intent.value;
              c in loaded.ops && loaded.ops[c] == Applying(invoice, intent, s.clock, Calendar.NextPeriod(s.clock, intent.price.interval))
            else c !in loaded.ops
  {
    loaded := Next(s, c, Go);
  }

  lemma ApplyUndisturbed(s: State, c: nat, invoice: nat) returns (loaded: State, after: State)
    requires c in s.ops && s.ops[c] == LoadingPaid(invoice) && invoice < |s.db.invoices|
    ensures loaded == Next(s, c, Go) && after == Next(loaded, c, Go) && c !in after.ops && after.db.payments == s.db.payments
    ensures if CanApply(s.db, invoice) then Applied(s, after.db, invoice) else after.db == s.db
    ensures |after.db.invoices| == |s.db.invoices| && after.db.invoices[invoice].status == s.db.invoices[invoice].status
  {
    loaded := PaidLoaded(s, c, invoice);
    if c in loaded.ops {
      var t := RowsApplied(s.db, invoice, loaded.ops[c].intent, loaded.ops[c].now, loaded.ops[c].periodEnd);
      after := StepApply(loaded, c, loaded.ops[c]);
      assert after.db == t;
    } else {
      IdleStays(loaded, c);
      after := loaded;
    }
  }

  lemma AskUndisturbed(s: State, c: nat, p: nat) returns (asking: State, recording: State, recorded: State)
    requires c !in s.ops && p < |s.db.payments| && s.db.payments[p].status == Pending && s.db.payments[p].session.Some?
    requires s.db.payments[p].invoice < |s.db.invoices|
    ensures asking == Next(s, c, LoadForConfirm(p)) && recording == Next(asking, c, Go) && recorded == Next(recording, c, Go)
    ensures recorded.clock == s.clock && recorded.db.subscription == s.db.subscription
    ensures match AnswerFor(s, s.db.payments[p])
            case Some(Paid) =>
              && recorded.db == Settle(s.db, p, s.clock) && c in recorded.ops && recorded.ops[c] == LoadingPaid(s.db.payments[p].invoice)
            case Some(answer) => recorded.db == SetPayment(s.db, p, answer) && c !in recorded.ops
            case None => recorded.db == s.db && c !in recorded.ops
  {
    asking := Next(s, c, LoadForConfirm(p));
    assert asking == SetOp(s, c, Asking(p));
    recording := Next(asking, c, Go);
    recorded := Next(recording, c, Go);
  }

  /** The steps of a confirmation, as many as it may need. */
  function ConfirmSteps(c: nat, p: nat): seq<(nat, Step)> {
    [(c, LoadForConfirm(p)), (c, Go), (c, Go), (c, Go), (c, Go)]
  }

  lemma IdleStays(s: State, c: nat)
    requires c !in s.ops
    ensures Next(s, c, Go) == s
  {
  }

  lemma RunFive(s: State, a: State, b: State, d: State, e: State, f: State, c: nat, p: nat)
    requires a == Next(s, c, LoadForConfirm(p)) && b == Next(a, c, Go) && d == Next(b, c, Go) && e == Next(d, c, Go) && f == Next(e, c, Go)
    ensures Run(s, ConfirmSteps(c, p)) == f
  {
    var steps := ConfirmSteps(c, p);
    assert steps[..4][..3] == steps[..3] && steps[..3][..2] == steps[..2] && steps[..2][..1] == steps[..1];
    assert Run(s, steps[..1]) == a;
    assert Run(s, steps[..2]) == b;
    assert Run(s, steps[..3]) == d;
    assert Run(s, steps[..4]) == e;
  }

  /**
   * A confirmation settles and applies what the gateway calls paid, records any other final answer, and
   * does nothing without one; of a payment that is paid already it applies the invoice again, and
   * leaves any other alone.
   */
  lemma ConfirmUndisturbed(s: State, c: nat, p: nat) returns (after: State)
    requires c !in s.ops && p < |s.db.payments| && s.db.payments[p].invoice < |s.db.invoices|
    ensures after == Run(s, ConfirmSteps(c, p)) && c !in after.ops
    ensures var x := s.db.payments[p];
            if x.status == Pending && AnswerFor(s, x) == Some(Paid) then
              && after.db.payments == s.db.payments[p := x.(status := Paid)]
              && |after.db.invoices| == |s.db.invoices| && after.db.invoices[x.invoice].status == Settled
              && (s.db.invoices[x.invoice].intent.Some? ==> Applied(s, after.db, x.invoice))
            else if x.status == Pending && AnswerFor(s, x).Some? then after.db == SetPayment(s.db, p, AnswerFor(s, x).value)
            else if x.status == Paid && CanApply(s.db, x.invoice) then
              Applied(s, after.db, x.invoice) && after.db.payments == s.db.payments
            else after.db == s.db
  {
    var x := s.db.payments[p];
    if x.status == Pending && x.session.Some? {
      after := PendingConfirmed(s, c, p);
    } else {
      after := SettledConfirmed(s, c, p);
    }
  }

  lemma SettledBy(s: State, recorded: State, p: nat)
    requires p < |s.db.payments| && s.db.payments[p].invoice < |s.db.invoices| && recorded.db == Settle(s.db, p, s.clock)
    ensures var i := s.db.payments[p].invoice;
            && |recorded.db.invoices| == |s.db.invoices| && recorded.db.invoices[i].status == Settled
            && recorded.db.invoices[i].intent == s.db.invoices[i].intent
            && recorded.db.payments == s.db.payments[p := s.db.payments[p].(status := Paid)]
  {
  }

  lemma AppliedAfter(s: State, recorded: State, t: Tables, p: nat)
    requires p < |s.db.payments| && s.db.payments[p].invoice < |s.db.invoices| && recorded.clock == s.clock
    requires var i := s.db.payments[p].invoice; i < |recorded.db.invoices| && recorded.db.invoices[i].intent == s.db.invoices[i].intent
    ensures Applied(recorded, t, s.db.payments[p].invoice) ==> Applied(s, t, s.db.payments[p].invoice)
  {
  }

  lemma PendingConfirmed(s: State, c: nat, p: nat) returns (after: State)
    requires c !in s.ops && p < |s.db.payments| && s.db.payments[p].status == Pending && s.db.payments[p].session.Some?
    requires s.db.payments[p].invoice < |s.db.invoices|
    ensures after == Run(s, ConfirmSteps(c, p)) && c !in after.ops
    ensures var x := s.db.payments[p];
            match AnswerFor(s, x)
            case Some(Paid) =>
              && after.db.payments == s.db.payments[p := x.(status := Paid)]
              && |after.db.invoices| == |s.db.invoices| && after.db.invoices[x.invoice].status == Settled
              && (s.db.invoices[x.invoice].intent.Some? ==> Applied(s, after.db, x.invoice))
            case Some(answer) => after.db == SetPayment(s.db, p, answer)
            case None => after.db == s.db
  {
    var asking, recording, recorded := AskUndisturbed(s, c, p);
    if AnswerFor(s, s.db.payments[p]) == Some(Paid) {
      SettledBy(s, recorded, p);
      var loaded;
      loaded, after := ApplyUndisturbed(recorded, c, s.db.payments[p].invoice);
      RunFive(s, asking, recording, recorded, loaded, after, c, p);
      AppliedAfter(s, recorded, after.db, p);
    } else {
      IdleStays(recorded, c);
      after := recorded;
      RunFive(s, asking, recording, recorded, recorded, recorded, c, p);
    }
  }

  lemma SettledConfirmed(s: State, c: nat, p: nat) returns (after: State)
    requires c !in s.ops && p < |s.db.payments| && s.db.payments[p].invoice < |s.db.invoices|
    requires s.db.payments[p].status != Pending || s.db.payments[p].session.None?
    ensures after == Run(s, ConfirmSteps(c, p)) && c !in after.ops && after.db.payments == s.db.payments
    ensures var x := s.db.payments[p];
            if x.status == Paid && CanApply(s.db, x.invoice)
            then Applied(s, after.db, x.invoice) else after.db == s.db
  {
    var loading := Next(s, c, LoadForConfirm(p));
    if s.db.payments[p].status == Paid {
      var loaded;
      loaded, after := ApplyUndisturbed(loading, c, s.db.payments[p].invoice);
      IdleStays(after, c);
      RunFive(s, loading, loaded, after, after, after, c, p);
    } else {
      assert loading == s;
      IdleStays(s, c);
      after := s;
      RunFive(s, s, s, s, s, s, c, p);
    }
  }
}
