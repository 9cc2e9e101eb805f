/** What the billing protocol promises over whole runs. */
module BillingResults {
  import opened Base
  import opened BillingTables
  import opened BillingProtocol
  import opened BillingSafety

  // ---- The subscription ----

  /**
   * However calls interleave, plan, price and seats together are the free ones, those of one settled
   * invoice, or of the trial's plan; there is no price exactly on the free plan; and a trial can only be
   * the first event ever.
   */
  lemma PlanAccountedFor(coupons: map<string, int>, clock: int, vatRate: nat, steps: seq<(nat, Step)>)
    requires clock < FREE_UNTIL
    ensures var t := Run(Start(coupons, clock, vatRate), steps).db;
            && (t.subscription.Some? ==>
                  var terms := TermsOf(t.subscription.value);
                  && (terms == FREE_TERMS || IsTrialOf(t.events, terms.plan) || PaidFor(t.invoices, terms))
                  && (terms.price.None? <==> terms.plan == FREE))
            && (forall i | 0 <= i < |t.events| && t.events[i].kind == TrialStarted :: i == 0)
  {
    RunInv(coupons, clock, vatRate, steps);
  }

  /** Unless an immediate cancellation is waiting for its downgrade, past due means a deadline is set and periods have length. */
  lemma DeadlineExactlyWhenPastDue(coupons: map<string, int>, clock: int, vatRate: nat, steps: seq<(nat, Step)>)
    requires clock < FREE_UNTIL
    ensures var s := Run(Start(coupons, clock, vatRate), steps);
            s.db.subscription.Some? ==>
              var x := s.db.subscription.value;
              && (x.status == PastDue ==> x.graceEndsAt.Some?)
              && (x.status != Canceled ==> (x.status == PastDue <==> x.graceEndsAt.Some?) && x.periodStart < x.periodEnd)
              && (x.cancelAtPeriodEnd ==> x.canceledAt.Some?)
              && x.periodStart <= x.periodEnd
  {
    RunInv(coupons, clock, vatRate, steps);
  }

  /** The subscription lapsed at least seven days ago and nothing has brought it back since. */
  predicate DueForDowngrade(s: State) {
    && s.db.subscription.Some? && s.db.subscription.value.status == PastDue
    && s.lapsedAt.Some? && s.lapsedAt.value + 7 * 86_400_000 <= s.clock
  }

  predicate Overdue(s: State) {
    s.db.subscription.Some? && GraceOver(s.db.subscription.value, s.clock)
  }

  /**
   * In every run the subscription is due for its downgrade exactly when its row is past due and the
   * deadline has passed. The worker's update asks again whether it is past due, the service's does not.
   */
  lemma DueExactly(coupons: map<string, int>, clock: int, vatRate: nat, steps: seq<(nat, Step)>)
    requires clock < FREE_UNTIL
    ensures var s := Run(Start(coupons, clock, vatRate), steps); DueForDowngrade(s) <==> Overdue(s)
  {
    RunInv(coupons, clock, vatRate, steps);
  }

  /** The steps that end a lapse: a settled invoice is applied, or the subscription canceled at once or downgraded. */
  predicate EndsLapse(s: State, c: nat, step: Step) {
    step.Go? && c in s.ops && (s.ops[c].Applying? || s.ops[c] == Cancelling(true) || s.ops[c].Downgrading?)
  }

  ghost predicate LapseEnded(s: State, steps: seq<(nat, Step)>) {
    exists k | 0 <= k < |steps| :: EndsLapse(Run(s, steps[..k]), steps[k].0, steps[k].1)
  }

  lemma LapseStays(s: State, c: nat, step: Step)
    requires Overdue(s) && !EndsLapse(s, c, step)
    ensures Overdue(Next(s, c, step))
  {
    if c in s.ops {
      LapseStaysOn(s, c, s.ops[c], step);
    }
  }

  lemma LapseStaysOn(s: State, c: nat, op: Op, step: Step)
    requires Overdue(s) && c in s.ops && op == s.ops[c] && !EndsLapse(s, c, step)
    ensures Overdue(StepOn(s, c, op, step))
  {
  }

  lemma LapseEnds(s: State, c: nat, step: Step)
    requires Inv(s) && EndsLapse(s, c, step)
    ensures !Overdue(Next(s, c, step))
  {
    assert OpTrue(s, s.ops[c]);
    if s.ops[c].Applying? {
      var op := s.ops[c];
      AppliedTables(s.db, op.invoice, op.intent, op.now, op.periodEnd, s.clock);
    }
  }

  lemma {:induction false} UntouchedStaysOverdue(s: State, steps: seq<(nat, Step)>)
    requires Overdue(s) && !LapseEnded(s, steps)
    ensures Overdue(Run(s, steps))
  {
    if steps != [] {
      var n := |steps| - 1;
      assert !EndsLapse(Run(s, steps[..n]), steps[n].0, steps[n].1);
      forall k | 0 <= k < n ensures !EndsLapse(Run(s, steps[..n][..k]), steps[..n][k].0, steps[..n][k].1) {
        assert steps[..n][..k] == steps[..k] && steps[..n][k] == steps[k];
      }
      UntouchedStaysOverdue(s, steps[..n]);
      LapseStays(Run(s, steps[..n]), steps[n].0, steps[n].1);
    }
  }

  /**
   * `expireOverdue` has read an overdue subscription and downgrades later without looking again. The
   * subscription it hits is due exactly when the row still is overdue; it is unless a step in between
   * ended the lapse, and right after such a step it is not.
   */
  lemma GraceHonouredExactly(s: State, c: nat, between: seq<(nat, Step)>)
    requires Inv(s) && c !in s.ops && Overdue(s)
    ensures var hit := Run(Next(s, c, LoadForExpiry), between);
            && (DueForDowngrade(hit) <==> Overdue(hit))
            && (!DueForDowngrade(hit) ==> LapseEnded(Next(s, c, LoadForExpiry), between))
            && (forall d, step :: EndsLapse(hit, d, step) ==> !DueForDowngrade(Next(hit, d, step)))
  {
    var read := Next(s, c, LoadForExpiry);
    NextKeeps(s, c, LoadForExpiry);
    RunKeeps(read, between);
    var hit := Run(read, between);
    if !LapseEnded(read, between) {
      UntouchedStaysOverdue(read, between);
    }
    forall d, step | EndsLapse(hit, d, step) ensures !DueForDowngrade(Next(hit, d, step)) {
      LapseEnds(hit, d, step);
      NextKeeps(hit, d, step);
    }
  }

  /** Applying a settled invoice again changes the subscription unless it happens at the same instant. */
  lemma AppliedAgain(t: Tables, invoice: nat, intent: Intent, now: int, later: int, periodEnd: int, laterEnd: int)
    requires invoice < |t.invoices| && (later == now ==> laterEnd == periodEnd)
    ensures var once := ApplyPaid(t, invoice, intent, now, periodEnd);
            var twice := ApplyPaid(once, invoice, intent, later, laterEnd);
            && (twice.subscription == once.subscription <==> later == now && laterEnd == periodEnd)
            && twice.redeemed == once.redeemed && twice.redeemedCount == once.redeemedCount
  {
  }

  // ---- Invoices and payments ----

  lemma {:induction false} RunSplits(s: State, steps: seq<(nat, Step)>, k: nat)
    requires k <= |steps|
    ensures Run(s, steps) == Run(Run(s, steps[..k]), steps[k..])
    decreases |steps|
  {
    if k == |steps| {
      assert steps[..k] == steps && steps[k..] == [];
    } else {
      var n := |steps| - 1;
      RunSplits(s, steps[..n], k);
      SliceStep(steps, k);
    }
  }

  lemma SliceStep<T>(steps: seq<T>, k: nat)
    requires k < |steps|
    ensures var n := |steps| - 1;
            && steps[..n][..k] == steps[..k] && steps[..n][k..] == steps[k..][..n - k]
            && |steps[k..]| == n - k + 1 && steps[k..][n - k] == steps[n]
  {
  }

  /**
   * Between any two moments of a run: an invoice keeps its amounts, and once settled its payment; a
   * settled invoice has been paid its total, an open one nothing; a paid payment stays paid.
   */
  lemma PaidOnceForGood(coupons: map<string, int>, clock: int, vatRate: nat, steps: seq<(nat, Step)>, k: nat)
    requires clock < FREE_UNTIL && k <= |steps|
    ensures var before, after := Run(Start(coupons, clock, vatRate), steps[..k]).db, Run(Start(coupons, clock, vatRate), steps).db;
            && |before.invoices| <= |after.invoices| && |before.payments| <= |after.payments|
            && (forall i | 0 <= i < |before.invoices| ::
                  && after.invoices[i].amounts == before.invoices[i].amounts
                  && (before.invoices[i].status == Settled ==>
                        && after.invoices[i].status == Settled
                        && after.invoices[i].paidAt == before.invoices[i].paidAt
                        && after.invoices[i].amountPaid == before.invoices[i].amountPaid))
            && (forall i | 0 <= i < |after.invoices| ::
                  && after.invoices[i].amountPaid == (if after.invoices[i].status == Settled then after.invoices[i].amounts.total else 0)
                  && (after.invoices[i].paidAt.Some? <==> after.invoices[i].status == Settled))
            && (forall i | 0 <= i < |before.payments| && before.payments[i].status == Paid :: after.payments[i].status == Paid)
            && (forall i | 0 <= i < |after.payments| && after.payments[i].status == Paid ::
                  after.payments[i].invoice < |after.invoices| && after.invoices[after.payments[i].invoice].status == Settled)
  {
    var s := Run(Start(coupons, clock, vatRate), steps[..k]);
    RunInv(coupons, clock, vatRate, steps[..k]);
    RunSplits(Start(coupons, clock, vatRate), steps, k);
    RunKeeps(s, steps[k..]);
    PaidFacts(s, Run(s, steps[k..]));
  }

  lemma PaidFacts(s: State, s': State)
    requires Inv(s') && Grows(s, s')
    ensures forall i | 0 <= i < |s.db.invoices| :: InvoiceGrows(s.db.invoices[i], s'.db.invoices[i])
    ensures forall i | 0 <= i < |s'.db.invoices| ::
              && s'.db.invoices[i].amountPaid == (if s'.db.invoices[i].status == Settled then s'.db.invoices[i].amounts.total else 0)
              && (s'.db.invoices[i].paidAt.Some? <==> s'.db.invoices[i].status == Settled)
    ensures forall i | 0 <= i < |s.db.payments| && s.db.payments[i].status == Paid :: s'.db.payments[i].status == Paid
    ensures forall i | 0 <= i < |s'.db.payments| :: s'.db.payments[i].invoice < |s'.db.invoices|
    ensures forall i | 0 <= i < |s'.db.payments| && s'.db.payments[i].status == Paid ::
              s'.db.invoices[s'.db.payments[i].invoice].status == Settled
  {
  }

  // ---- Coupons ----

  /** A coupon's counter is what it was before, plus one if this organisation has redeemed it. */
  predicate CouponsOk(t: Tables, coupons: map<string, int>) {
    && t.redeemedCount.Keys == coupons.Keys && t.redeemed <= coupons.Keys
    && forall code | code in coupons :: t.redeemedCount[code] == coupons[code] + if code in t.redeemed then 1 else 0
  }

  lemma NextCoupons(s: State, c: nat, step: Step, coupons: map<string, int>)
    requires CouponsOk(s.db, coupons)
    ensures CouponsOk(Next(s, c, step).db, coupons)
  {
    if c in s.ops && step.Go? {
      GoCoupons(s, c, s.ops[c], coupons);
    } else if c in s.ops {
      OnCoupons(s, c, s.ops[c], step);
    }
  }

  lemma OnCoupons(s: State, c: nat, op: Op, step: Step)
    requires !step.Go?
    ensures StepOn(s, c, op, step).db.redeemed == s.db.redeemed && StepOn(s, c, op, step).db.redeemedCount == s.db.redeemedCount
  {
  }

  lemma GoCoupons(s: State, c: nat, op: Op, coupons: map<string, int>)
    requires CouponsOk(s.db, coupons)
    ensures CouponsOk(StepGo(s, c, op).db, coupons)
  {
    var s' := StepGo(s, c, op);
    if op.Applying? && op.invoice < |s.db.invoices| {
      ApplyCoupons(s.db, op.invoice, op.intent, op.now, op.periodEnd, coupons);
    } else {
      assert s'.db.redeemed == s.db.redeemed && s'.db.redeemedCount == s.db.redeemedCount;
    }
  }

  lemma ApplyCoupons(t: Tables, invoice: nat, intent: Intent, now: int, periodEnd: int, coupons: map<string, int>)
    requires CouponsOk(t, coupons) && invoice < |t.invoices|
    ensures CouponsOk(ApplyPaid(t, invoice, intent, now, periodEnd), coupons)
  {
  }

  /** However often invoices that carry a coupon are applied, its counter goes up at most once. */
  lemma {:induction false} RedeemedOnce(coupons: map<string, int>, clock: int, vatRate: nat, steps: seq<(nat, Step)>)
    ensures CouponsOk(Run(Start(coupons, clock, vatRate), steps).db, coupons)
  {
    if steps != [] {
      var n := |steps| - 1;
      RedeemedOnce(coupons, clock, vatRate, steps[..n]);
      NextCoupons(Run(Start(coupons, clock, vatRate), steps[..n]), steps[n].0, steps[n].1, coupons);
    }
  }
}
