/** What the organisation is subscribed to and billed for, traced back to what its checkouts asked for. */
module BillingTerms {
  import opened Base
  import opened BillingTables
  import opened BillingProtocol
  import opened BillingSafety

  /** What a call of `checkout` asks for, with a plan that costs something. */
  function AskedBy(step: Step): set<Terms> {
    if step.Checkout? && step.plan != FREE then {Terms(step.plan, Some(step.price), step.quantity)} else {}
  }

  /** The same for those that ask for a trial. */
  function TrialAskedBy(step: Step): set<Terms> {
    if step.Checkout? && step.trialDays > 0 then AskedBy(step) else {}
  }

  function Asked(steps: seq<(nat, Step)>): set<Terms> {
    if steps == [] then {} else Asked(steps[..|steps| - 1]) + AskedBy(steps[|steps| - 1].1)
  }

  function TrialAsked(steps: seq<(nat, Step)>): set<Terms> {
    if steps == [] then {} else TrialAsked(steps[..|steps| - 1]) + TrialAskedBy(steps[|steps| - 1].1)
  }

  /** The terms a client is working on. */
  function WorksOn(op: Op): Option<Terms> {
    match op
    case Quoting(plan, price, quantity, _) => Some(Terms(plan, Some(price), quantity))
    case StartingTrial(plan, price, quantity, _, _) => Some(Terms(plan, Some(price), quantity))
    case Renewing(intent, _, _) => Some(IntendedTerms(intent))
    case Issuing(intent, _, _, _, _, _) => Some(IntendedTerms(intent))
    case Applying(_, intent, _, _) => Some(IntendedTerms(intent))
    case _ => None
  }

  predicate InvoicesAsked(invoices: seq<Invoice>, asked: set<Terms>) {
    forall i | 0 <= i < |invoices| && invoices[i].intent.Some? :: IntendedTerms(invoices[i].intent.value) in asked
  }

  /** Whatever is worked on, billed or subscribed to was asked for; a trial's terms were asked for as a trial's. */
  predicate Traced(s: State, asked: set<Terms>, trials: set<Terms>) {
    && (forall c | c in s.ops && WorksOn(s.ops[c]).Some? :: WorksOn(s.ops[c]).value in asked)
    && (forall c | c in s.ops && s.ops[c].StartingTrial? :: WorksOn(s.ops[c]).value in trials)
    && InvoicesAsked(s.db.invoices, asked)
    && (s.db.subscription.Some? ==>
          var terms := TermsOf(s.db.subscription.value);
          terms == FREE_TERMS || (terms in asked && (terms in trials || PaidFor(s.db.invoices, terms))))
  }

  lemma Widen(s: State, asked: set<Terms>, trials: set<Terms>, asked': set<Terms>, trials': set<Terms>)
    requires Traced(s, asked, trials) && asked <= asked' && trials <= trials'
    ensures Traced(s, asked', trials')
  {
  }

  lemma BeginTraced(s: State, c: nat, step: Step, asked: set<Terms>, trials: set<Terms>)
    requires Inv(s) && Traced(s, asked, trials) && c !in s.ops
    ensures Traced(StepBegin(s, c, step), asked + AskedBy(step), trials + TrialAskedBy(step))
  {
    if step.Checkout? {
      Widen(s, asked, trials, asked + AskedBy(step), trials + TrialAskedBy(step));
      CheckoutTraced(s, c, step, asked + AskedBy(step), trials + TrialAskedBy(step));
    } else if step.LoadForRenewal? {
      RenewalTraced(s, c, asked, trials);
    } else {
      OtherBeginTraced(s, c, step, asked, trials);
    }
  }

  lemma CheckoutTraced(s: State, c: nat, step: Step, asked: set<Terms>, trials: set<Terms>)
    requires Traced(s, asked, trials) && step.Checkout? && AskedBy(step) <= asked && TrialAskedBy(step) <= trials
    ensures Traced(StepBegin(s, c, step), asked, trials)
  {
  }

  lemma RenewalTraced(s: State, c: nat, asked: set<Terms>, trials: set<Terms>)
    requires Traced(s, asked, trials)
    ensures Traced(StepRenewal(s, c), asked, trials)
  {
  }

  lemma OtherBeginTraced(s: State, c: nat, step: Step, asked: set<Terms>, trials: set<Terms>)
    requires Traced(s, asked, trials) && c !in s.ops && !step.Checkout? && !step.LoadForRenewal?
    ensures Traced(StepBegin(s, c, step), asked, trials)
  {
  }

  lemma ApplyTraced(s: State, c: nat, op: Op, asked: set<Terms>, trials: set<Terms>)
    requires Inv(s) && Traced(s, asked, trials) && c in s.ops && op == s.ops[c] && op.Applying?
    ensures Traced(StepApply(s, c, op), asked, trials)
  {
    assert OpTrue(s, op);
    var s' := StepApply(s, c, op);
    assert SettledFor(s'.db.invoices[op.invoice], IntendedTerms(op.intent));
    assert s'.db.invoices[op.invoice].intent == s.db.invoices[op.invoice].intent;
    assert TermsOf(s'.db.subscription.value) == IntendedTerms(op.intent) == WorksOn(op).value;
  }

  lemma InvoicesTraced(s: State, s': State, asked: set<Terms>, trials: set<Terms>)
    requires Traced(s, asked, trials) && s'.db.subscription == s.db.subscription && |s.db.invoices| <= |s'.db.invoices|
    requires forall i | 0 <= i < |s.db.invoices| ::
               s'.db.invoices[i].intent == s.db.invoices[i].intent &&
               (s.db.invoices[i].status == Settled ==> s'.db.invoices[i].status == Settled)
    requires InvoicesAsked(s'.db.invoices, asked)
    requires forall c | c in s'.ops && WorksOn(s'.ops[c]).Some? :: WorksOn(s'.ops[c]).value in asked
    requires forall c | c in s'.ops && s'.ops[c].StartingTrial? :: c in s.ops && s.ops[c] == s'.ops[c]
    ensures Traced(s', asked, trials)
  {
    if s.db.subscription.Some? {
      PaidForGrows(s.db.invoices, s'.db.invoices, TermsOf(s.db.subscription.value));
    }
  }

  lemma GoTraced(s: State, c: nat, op: Op, asked: set<Terms>, trials: set<Terms>)
    requires Inv(s) && Traced(s, asked, trials) && c in s.ops && op == s.ops[c]
    ensures Traced(StepGo(s, c, op), asked, trials)
  {
    if op.Applying? {
      ApplyTraced(s, c, op, asked, trials);
    } else if op.Issuing? || op.Recording? || op.LoadingPaid? {
      GoOnInvoices(s, c, op, asked, trials);
    } else {
      GoElsewhere(s, c, op, asked, trials);
    }
  }

  lemma GoOnInvoices(s: State, c: nat, op: Op, asked: set<Terms>, trials: set<Terms>)
    requires Inv(s) && Traced(s, asked, trials) && c in s.ops && op == s.ops[c] && (op.Issuing? || op.Recording? || op.LoadingPaid?)
    ensures Traced(StepGo(s, c, op), asked, trials)
  {
    InvoicesTraced(s, StepGo(s, c, op), asked, trials);
  }

  lemma GoElsewhere(s: State, c: nat, op: Op, asked: set<Terms>, trials: set<Terms>)
    requires Inv(s) && Traced(s, asked, trials) && c in s.ops && op == s.ops[c]
    requires !op.Applying? && !op.Issuing? && !op.Recording? && !op.LoadingPaid?
    ensures Traced(StepGo(s, c, op), asked, trials)
  {
    if op.Cancelling? || op.Resuming? || op.EnteringGrace? || op.Downgrading? {
      GoOnRow(s, c, op, asked, trials);
    } else {
      GoQuietly(s, c, op, asked, trials);
    }
  }

  lemma GoOnRow(s: State, c: nat, op: Op, asked: set<Terms>, trials: set<Terms>)
    requires Traced(s, asked, trials) && c in s.ops && op == s.ops[c]
    requires op.Cancelling? || op.Resuming? || op.EnteringGrace? || op.Downgrading?
    ensures Traced(StepGo(s, c, op), asked, trials)
  {
  }

  lemma GoQuietly(s: State, c: nat, op: Op, asked: set<Terms>, trials: set<Terms>)
    requires Traced(s, asked, trials) && c in s.ops && op == s.ops[c]
    requires op.StartingTrial? || op.Renewing? || op.LoadingInvoice? || op.CreatingPayment? || op.Asking? || op.Quoting? || op.AwaitingSession?
    ensures Traced(StepGo(s, c, op), asked, trials)
  {
  }

  lemma OnTraced(s: State, c: nat, op: Op, step: Step, asked: set<Terms>, trials: set<Terms>)
    requires Inv(s) && Traced(s, asked, trials) && c in s.ops && op == s.ops[c]
    ensures Traced(StepOn(s, c, op, step), asked, trials)
  {
    if step.Go? {
      GoTraced(s, c, op, asked, trials);
    }
  }

  lemma {:induction false} RunTraced(coupons: map<string, int>, clock: int, vatRate: nat, steps: seq<(nat, Step)>)
    requires clock < FREE_UNTIL
    ensures Traced(Run(Start(coupons, clock, vatRate), steps), Asked(steps), TrialAsked(steps))
  {
    if steps != [] {
      var n := |steps| - 1;
      var prior, c, step := Run(Start(coupons, clock, vatRate), steps[..n]), steps[n].0, steps[n].1;
      RunTraced(coupons, clock, vatRate, steps[..n]);
      RunInv(coupons, clock, vatRate, steps[..n]);
      if c in prior.ops {
        OnTraced(prior, c, prior.ops[c], step, Asked(steps[..n]), TrialAsked(steps[..n]));
        Widen(Next(prior, c, step), Asked(steps[..n]), TrialAsked(steps[..n]), Asked(steps), TrialAsked(steps));
      } else {
        BeginTraced(prior, c, step, Asked(steps[..n]), TrialAsked(steps[..n]));
      }
    }
  }

  ghost predicate AskedAt(steps: seq<(nat, Step)>, k: nat, terms: Terms) {
    k < |steps| && terms in AskedBy(steps[k].1)
  }

  lemma {:induction false} WhenAsked(steps: seq<(nat, Step)>, terms: Terms) returns (k: nat)
    requires terms in Asked(steps)
    ensures AskedAt(steps, k, terms)
  {
    var n := |steps| - 1;
    if terms in Asked(steps[..n]) {
      k := WhenAsked(steps[..n], terms);
    } else {
      k := n;
    }
  }

  lemma {:induction false} WhenTrialAsked(steps: seq<(nat, Step)>, terms: Terms) returns (k: nat)
    requires terms in TrialAsked(steps)
    ensures AskedAt(steps, k, terms) && steps[k].1.trialDays > 0
  {
    var n := |steps| - 1;
    if terms in TrialAsked(steps[..n]) {
      k := WhenTrialAsked(steps[..n], terms);
    } else {
      k := n;
    }
  }

  /**
   * In every run plan, price and seats together are the free ones, or were asked for by one checkout of
   * the run: by one for a trial, or by one whose terms a settled invoice names.
   */
  lemma SubscribedAsAsked(coupons: map<string, int>, clock: int, vatRate: nat, steps: seq<(nat, Step)>)
    requires clock < FREE_UNTIL
    ensures var t := Run(Start(coupons, clock, vatRate), steps).db;
            t.subscription.Some? ==>
              var terms := TermsOf(t.subscription.value);
              || terms == FREE_TERMS
              || (exists k: nat :: AskedAt(steps, k, terms) && steps[k].1.trialDays > 0)
              || (PaidFor(t.invoices, terms) && exists k: nat :: AskedAt(steps, k, terms))
  {
    RunTraced(coupons, clock, vatRate, steps);
    var t := Run(Start(coupons, clock, vatRate), steps).db;
    if t.subscription.Some? && TermsOf(t.subscription.value) != FREE_TERMS {
      var terms := TermsOf(t.subscription.value);
      if terms in TrialAsked(steps) {
        var k := WhenTrialAsked(steps, terms);
      } else {
        var k := WhenAsked(steps, terms);
      }
    }
  }

  /** Nobody is billed for anything but what a checkout asked for, renewals included. */
  lemma BilledAsAsked(coupons: map<string, int>, clock: int, vatRate: nat, steps: seq<(nat, Step)>, i: nat)
    requires clock < FREE_UNTIL
    requires var t := Run(Start(coupons, clock, vatRate), steps).db; i < |t.invoices| && t.invoices[i].intent.Some?
    ensures var t := Run(Start(coupons, clock, vatRate), steps).db;
            exists k: nat :: AskedAt(steps, k, IntendedTerms(t.invoices[i].intent.value))
  {
    RunTraced(coupons, clock, vatRate, steps);
    var t := Run(Start(coupons, clock, vatRate), steps).db;
    var k := WhenAsked(steps, IntendedTerms(t.invoices[i].intent.value));
  }
}
