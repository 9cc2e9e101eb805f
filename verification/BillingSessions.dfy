/** Payment sessions: when an invoice can have two that a customer could pay. */
module BillingSessions {
  import opened Base
  import opened BillingTables
  import opened BillingProtocol
  import opened BillingSafety

  predicate NoneLive(t: Tables, invoice: nat, now: int) {
    forall p | 0 <= p < |t.payments| && t.payments[p].invoice == invoice :: !LivePayment(t.payments[p], now)
  }

  /** Client inside `createCheckout` for the invoice, from reading it to storing the session. */
  predicate Opens(t: Tables, op: Op, invoice: nat) {
    || ((op.LoadingInvoice? || op.CreatingPayment?) && op.invoice == invoice)
    || (op.AwaitingSession? && op.payment < |t.payments| && t.payments[op.payment].invoice == invoice)
  }

  /** No two clients are inside `createCheckout` for one invoice. */
  predicate OneOpener(s: State) {
    forall c, d, i | c in s.ops && d in s.ops && 0 <= i < |s.db.invoices| && Opens(s.db, s.ops[c], i) && Opens(s.db, s.ops[d], i) :: c == d
  }

  /** Whoever is about to open a session found none live, and there is none yet. */
  predicate OpenersAlone(s: State) {
    && (forall c | c in s.ops && s.ops[c].CreatingPayment? :: NoneLive(s.db, s.ops[c].invoice, s.clock))
    && (forall c | c in s.ops && s.ops[c].AwaitingSession? && s.ops[c].payment < |s.db.payments| ::
          NoneLive(s.db, s.db.payments[s.ops[c].payment].invoice, s.clock))
  }

  predicate SessionsOk(s: State) {
    OneLive(s.db, s.clock) && OpenersAlone(s)
  }

  /** No payment comes to life. */
  predicate Quieter(s: State, s': State) {
    && |s'.db.payments| == |s.db.payments|
    && forall p | 0 <= p < |s.db.payments| ::
         && s'.db.payments[p].invoice == s.db.payments[p].invoice
         && (LivePayment(s'.db.payments[p], s'.clock) ==> LivePayment(s.db.payments[p], s.clock))
  }

  lemma QuieterKeeps(s: State, s': State, c: nat)
    requires SessionsOk(s) && Quieter(s, s') && OthersStay(s, s', c)
    requires c in s'.ops && s'.ops[c].CreatingPayment? ==> NoneLive(s.db, s'.ops[c].invoice, s.clock)
    requires c in s'.ops ==> !s'.ops[c].AwaitingSession? || (c in s.ops && s.ops[c] == s'.ops[c])
    ensures SessionsOk(s')
  {
  }

  lemma CreateSessions(s: State, c: nat, op: Op)
    requires Inv(s) && SessionsOk(s) && c in s.ops && op == s.ops[c] && op.CreatingPayment?
    ensures SessionsOk(StepCreatePayment(s, c, op))
  {
    var s' := StepCreatePayment(s, c, op);
    if op.invoice >= |s.db.invoices| {
      QuieterKeeps(s, s', c);
    } else {
      var n := |s.db.payments|;
      assert forall p | 0 <= p < n :: s'.db.payments[p] == s.db.payments[p];
      assert !LivePayment(s'.db.payments[n], s'.clock);
      forall i: nat | NoneLive(s.db, i, s.clock) ensures NoneLive(s'.db, i, s'.clock) {
      }
      CreatedOpeners(s, s', c, n);
    }
  }

  lemma CreatedOpeners(s: State, s': State, c: nat, n: nat)
    requires Awaited(s) && OpenersAlone(s) && OthersStay(s, s', c) && n == |s.db.payments| && |s'.db.payments| == n + 1
    requires c in s.ops && s.ops[c].CreatingPayment? && c in s'.ops && s'.ops[c].AwaitingSession? && s'.ops[c].payment == n
    requires s'.db.payments[n].invoice == s.ops[c].invoice && s'.clock == s.clock
    requires forall p | 0 <= p < n :: s'.db.payments[p] == s.db.payments[p]
    requires forall i: nat | NoneLive(s.db, i, s.clock) :: NoneLive(s'.db, i, s'.clock)
    ensures OpenersAlone(s')
  {
    forall d | d in s'.ops && s'.ops[d].AwaitingSession? && s'.ops[d].payment < |s'.db.payments|
      ensures NoneLive(s'.db, s'.db.payments[s'.ops[d].payment].invoice, s'.clock)
    {
      if d == c {
        assert NoneLive(s.db, s.ops[c].invoice, s.clock);
      } else {
        assert s'.ops[d] == s.ops[d];
        assert NoneLive(s.db, s.db.payments[s.ops[d].payment].invoice, s.clock);
      }
    }
  }

  /** The session comes to life while nobody else is opening one for its invoice. */
  lemma SessionSessions(s: State, c: nat, op: Op, session: string, expiresAt: int)
    requires Inv(s) && SessionsOk(s) && OneOpener(s) && c in s.ops && op == s.ops[c] && op.AwaitingSession?
    ensures SessionsOk(StepSession(s, c, op, session, expiresAt))
  {
    var s' := StepSession(s, c, op, session, expiresAt);
    assert PaymentOk(s.db.payments[op.payment], s.db.invoices, s.answers);
    var i := s.db.payments[op.payment].invoice;
    assert NoneLive(s.db, i, s.clock);
    forall p | 0 <= p < |s.db.payments| && p != op.payment ensures s'.db.payments[p] == s.db.payments[p] {
    }
    forall j: nat | j != i && NoneLive(s.db, j, s.clock) ensures NoneLive(s'.db, j, s'.clock) {
    }
    OpenedAlone(s, s', c, op, i);
  }

  lemma OpenedAlone(s: State, s': State, c: nat, op: Op, i: nat)
    requires Awaited(s) && OpenersAlone(s) && OneOpener(s) && c in s.ops && op == s.ops[c] && op.AwaitingSession?
    requires op.payment < |s.db.payments| && s.db.payments[op.payment].invoice == i < |s.db.invoices|
    requires OthersStay(s, s', c) && (c in s'.ops ==> !s'.ops[c].CreatingPayment? && !s'.ops[c].AwaitingSession?)
    requires |s'.db.payments| == |s.db.payments|
    requires forall p | 0 <= p < |s.db.payments| :: s'.db.payments[p].invoice == s.db.payments[p].invoice
    requires forall j: nat | j != i && NoneLive(s.db, j, s.clock) :: NoneLive(s'.db, j, s'.clock)
    ensures OpenersAlone(s')
  {
    assert Opens(s.db, op, i);
    forall d | d in s'.ops && (s'.ops[d].CreatingPayment? || s'.ops[d].AwaitingSession?)
      ensures d in s.ops && s'.ops[d] == s.ops[d] && !Opens(s.db, s.ops[d], i)
    {
    }
  }

  lemma GoSessions(s: State, c: nat, op: Op)
    requires Inv(s) && SessionsOk(s) && c in s.ops && op == s.ops[c]
    ensures SessionsOk(StepGo(s, c, op))
  {
    if op.CreatingPayment? {
      CreateSessions(s, c, op);
    } else if op.LoadingInvoice? {
      LoadSessions(s, c, op);
    } else if op.Recording? {
      RecordSessions(s, c, op);
    } else {
      OtherSessions(s, c, op);
    }
  }

  lemma LoadSessions(s: State, c: nat, op: Op)
    requires SessionsOk(s) && c in s.ops && op == s.ops[c] && op.LoadingInvoice?
    ensures SessionsOk(StepLoadInvoice(s, c, op))
  {
    QuieterKeeps(s, StepLoadInvoice(s, c, op), c);
  }

  lemma RecordSessions(s: State, c: nat, op: Op)
    requires Inv(s) && SessionsOk(s) && c in s.ops && op == s.ops[c] && op.Recording?
    ensures SessionsOk(StepRecord(s, c, op.payment, op.answer))
  {
    assert OpTrue(s, op);
    QuieterKeeps(s, StepRecord(s, c, op.payment, op.answer), c);
  }

  lemma OtherSessions(s: State, c: nat, op: Op)
    requires SessionsOk(s) && c in s.ops && op == s.ops[c] && !op.CreatingPayment? && !op.LoadingInvoice? && !op.Recording?
    ensures SessionsOk(StepGo(s, c, op))
  {
    SamePayments(s, c, op);
    QuieterKeeps(s, StepGo(s, c, op), c);
  }

  lemma SamePayments(s: State, c: nat, op: Op)
    requires c in s.ops && op == s.ops[c] && !op.CreatingPayment? && !op.LoadingInvoice? && !op.Recording?
    ensures var s' := StepGo(s, c, op);
            && s'.db.payments == s.db.payments && s'.clock == s.clock && OthersStay(s, s', c)
            && (c in s'.ops && s'.ops[c] != op ==> !s'.ops[c].CreatingPayment? && !s'.ops[c].AwaitingSession?)
  {
  }

  lemma OnSessions(s: State, c: nat, op: Op, step: Step)
    requires Inv(s) && SessionsOk(s) && OneOpener(s) && c in s.ops && op == s.ops[c] && !step.Go?
    ensures SessionsOk(StepOn(s, c, op, step))
  {
    if step.SessionOpened? && op.AwaitingSession? {
      SessionSessions(s, c, op, step.session, step.expiresAt);
    } else {
      QuieterKeeps(s, StepOn(s, c, op, step), c);
    }
  }

  lemma BeginSessions(s: State, c: nat, step: Step)
    requires SessionsOk(s) && c !in s.ops
    ensures SessionsOk(StepBegin(s, c, step))
  {
    QuieterKeeps(s, StepBegin(s, c, step), c);
  }

  lemma {:induction false} RunSessions(coupons: map<string, int>, clock: int, vatRate: nat, steps: seq<(nat, Step)>)
    requires clock < FREE_UNTIL
    requires forall k | 0 <= k < |steps| :: OneOpener(Run(Start(coupons, clock, vatRate), steps[..k]))
    ensures SessionsOk(Run(Start(coupons, clock, vatRate), steps))
  {
    if steps != [] {
      var n := |steps| - 1;
      forall k | 0 <= k < n ensures OneOpener(Run(Start(coupons, clock, vatRate), steps[..n][..k])) {
        assert steps[..n][..k] == steps[..k];
      }
      RunSessions(coupons, clock, vatRate, steps[..n]);
      RunInv(coupons, clock, vatRate, steps[..n]);
      NextSessions(Run(Start(coupons, clock, vatRate), steps[..n]), steps[n].0, steps[n].1);
    }
  }

  lemma NextSessions(s: State, c: nat, step: Step)
    requires Inv(s) && SessionsOk(s) && OneOpener(s)
    ensures SessionsOk(Next(s, c, step))
  {
    if c !in s.ops {
      BeginSessions(s, c, step);
    } else if step.Go? {
      GoSessions(s, c, s.ops[c]);
    } else {
      OnSessions(s, c, s.ops[c], step);
    }
  }

  /**
   * If no two clients are ever opening a session for the same invoice, an invoice never has two
   * payments a customer could pay.
   */
  lemma OneLiveSession(coupons: map<string, int>, clock: int, vatRate: nat, steps: seq<(nat, Step)>)
    requires clock < FREE_UNTIL
    requires forall k | 0 <= k < |steps| :: OneOpener(Run(Start(coupons, clock, vatRate), steps[..k]))
    ensures var s := Run(Start(coupons, clock, vatRate), steps);
            forall p, q | 0 <= p < q < |s.db.payments| && s.db.payments[p].invoice == s.db.payments[q].invoice ::
              !LivePayment(s.db.payments[p], s.clock) || !LivePayment(s.db.payments[q], s.clock)
  {
    RunSessions(coupons, clock, vatRate, steps);
  }

  // ---- Whatever the invoice's status ----

  /** `createCheckout` from its first step to the stored session. */
  function CheckoutCall(s: State, c: nat, invoice: nat, session: string, expiresAt: int): State {
    Next(Next(Next(Next(s, c, PayInvoice(invoice)), c, Go), c, Go), c, SessionOpened(session, expiresAt))
  }

  /**
   * For any invoice, settled or not, the call opens a new session exactly when none is live, and
   * otherwise changes no row.
   */
  lemma CheckoutOpensExactly(s: State, c: nat, invoice: nat, session: string, expiresAt: int)
    requires c !in s.ops && invoice < |s.db.invoices|
    ensures var t := CheckoutCall(s, c, invoice, session, expiresAt).db;
            && t.invoices == s.db.invoices
            && (|t.payments| > |s.db.payments| <==> !HasReusable(s.db, invoice, s.clock))
            && t.payments == s.db.payments +
                 if HasReusable(s.db, invoice, s.clock) then []
                 else [Payment(invoice, Pending, s.db.invoices[invoice].amounts.total, Some(session), Some(expiresAt))]
  {
    var loading := Next(s, c, PayInvoice(invoice));
    assert loading == SetOp(s, c, LoadingInvoice(invoice, None));
    var loaded := Next(loading, c, Go);
    if HasReusable(s.db, invoice, s.clock) {
      assert loaded == Drop(loading, c);
      assert Next(loaded, c, Go) == loaded;
    } else {
      assert loaded == SetOp(loading, c, CreatingPayment(invoice, None));
      var awaiting := Next(loaded, c, Go);
      assert awaiting.ops[c] == AwaitingSession(|s.db.payments|, None);
    }
  }

  // ---- A second session ----

  /** Step `k` stores a session on payment `q`, which is for the invoice. */
  predicate StoredAt(s: State, steps: seq<(nat, Step)>, invoice: nat, q: nat, k: nat) {
    && k < |steps| && Stores(Run(s, steps[..k]), steps[k].0, steps[k].1, q)
    && Run(s, steps[..k]).db.payments[q].invoice == invoice
  }

  predicate Stores(s: State, c: nat, step: Step, q: nat) {
    step.SessionOpened? && c in s.ops && s.ops[c].AwaitingSession? && s.ops[c].payment == q < |s.db.payments|
  }

  predicate LiveFor(s: State, invoice: nat, q: nat) {
    q < |s.db.payments| && Reusable(s.db.payments[q], invoice, s.clock)
  }

  lemma OnlyStoringRevives(s: State, c: nat, step: Step, invoice: nat, q: nat)
    requires Inv(s) && LiveFor(Next(s, c, step), invoice, q) && !Stores(s, c, step, q)
    ensures LiveFor(s, invoice, q)
  {
    if c in s.ops {
      assert OpTrue(s, s.ops[c]);
      OnlyStoringRevivesOn(s, c, s.ops[c], step, invoice, q);
    } else {
      OnlyStoringRevivesBegin(s, c, step, invoice, q);
    }
  }

  lemma OnlyStoringRevivesOn(s: State, c: nat, op: Op, step: Step, invoice: nat, q: nat)
    requires c in s.ops && op == s.ops[c] && LiveFor(StepOn(s, c, op, step), invoice, q) && !Stores(s, c, step, q)
    requires op.Recording? ==> op.answer != Pending
    ensures LiveFor(s, invoice, q)
  {
  }

  lemma OnlyStoringRevivesBegin(s: State, c: nat, step: Step, invoice: nat, q: nat)
    requires LiveFor(StepBegin(s, c, step), invoice, q)
    ensures LiveFor(s, invoice, q)
  {
  }

  lemma {:induction false} LiveWasStored(s: State, steps: seq<(nat, Step)>, invoice: nat, q: nat) returns (k: nat)
    requires Inv(s) && !LiveFor(s, invoice, q) && LiveFor(Run(s, steps), invoice, q)
    ensures StoredAt(s, steps, invoice, q, k)
  {
    var n := |steps| - 1;
    var prior := Run(s, steps[..n]);
    if LiveFor(prior, invoice, q) {
      k := LiveWasStored(s, steps[..n], invoice, q);
      assert steps[..n][..k] == steps[..k];
    } else {
      k := n;
      if !Stores(prior, steps[n].0, steps[n].1, q) {
        RunKeeps(s, steps[..n]);
        OnlyStoringRevives(prior, steps[n].0, steps[n].1, invoice, q);
      }
      StoredKeepsInvoice(prior, steps[n].0, steps[n].1, q);
    }
  }

  lemma StoredKeepsInvoice(s: State, c: nat, step: Step, q: nat)
    requires Stores(s, c, step, q)
    ensures q < |Next(s, c, step).db.payments| && Next(s, c, step).db.payments[q].invoice == s.db.payments[q].invoice
  {
  }

  lemma OwnSession(s: State, c: nat, session: string, expiresAt: int)
    requires Inv(s) && c in s.ops && s.ops[c].AwaitingSession? && s.clock < expiresAt
    ensures var p := s.ops[c].payment;
            var after := Next(s, c, SessionOpened(session, expiresAt));
            && p < |s.db.payments| && s.db.payments[p].session.None? && LiveFor(after, s.db.payments[p].invoice, p)
            && forall q: nat, i: nat | q != p :: LiveFor(after, i, q) <==> LiveFor(s, i, q)
  {
  }

  lemma OthersWereStored(found: State, steps: seq<(nat, Step)>, before: State, invoice: nat)
    requires Inv(found) && Run(found, steps) == before && !HasReusable(found.db, invoice, found.clock)
    ensures forall q: nat | LiveFor(before, invoice, q) :: exists k: nat :: StoredAt(found, steps, invoice, q, k)
  {
    forall q: nat | LiveFor(before, invoice, q) ensures exists k: nat :: StoredAt(found, steps, invoice, q, k) {
      assert !LiveFor(found, invoice, q);
      var k := LiveWasStored(found, steps, invoice, q);
    }
  }

  lemma NothingFound(s: State, c: nat)
    requires Inv(s) && c in s.ops && s.ops[c].LoadingInvoice? && !HasReusable(s.db, s.ops[c].invoice, s.clock)
    ensures Inv(Next(s, c, Go)) && !HasReusable(Next(s, c, Go).db, s.ops[c].invoice, Next(s, c, Go).clock)
  {
    NextKeeps(s, c, Go);
  }

  /**
   * A client has found nothing to reuse and later stores its session. Another payment of the invoice
   * can then be paid as well exactly when a session was stored on it since, and it is still live.
   */
  lemma SecondSessionExactly(s: State, c: nat, steps: seq<(nat, Step)>, before: State, session: string, expiresAt: int)
    requires Inv(s) && c in s.ops && s.ops[c].LoadingInvoice? && !HasReusable(s.db, s.ops[c].invoice, s.clock)
    requires before == Run(Next(s, c, Go), steps)
    requires c in before.ops && before.ops[c].AwaitingSession? && before.ops[c].payment < |before.db.payments|
    requires before.db.payments[before.ops[c].payment].invoice == s.ops[c].invoice && before.clock < expiresAt
    ensures var i, p := s.ops[c].invoice, before.ops[c].payment;
            var after := Next(before, c, SessionOpened(session, expiresAt));
            && LiveFor(after, i, p)
            && ((exists q: nat :: q != p && LiveFor(after, i, q)) <==>
                (exists q: nat, k: nat :: StoredAt(Next(s, c, Go), steps, i, q, k) && LiveFor(before, i, q)))
  {
    var found, i, p := Next(s, c, Go), s.ops[c].invoice, before.ops[c].payment;
    NothingFound(s, c);
    RunKeeps(found, steps);
    OthersWereStored(found, steps, before, i);
    OwnSession(before, c, session, expiresAt);
    var after := Next(before, c, SessionOpened(session, expiresAt));
    if q: nat :| q != p && LiveFor(after, i, q) {
      assert LiveFor(before, i, q);
    }
    if q: nat, k: nat :| StoredAt(found, steps, i, q, k) && LiveFor(before, i, q) {
      assert q != p && LiveFor(after, i, q);
    }
  }

  lemma SessionMade(s: State, c: nat, session: string, expiresAt: int) returns (after: State)
    requires c in s.ops && s.ops[c].CreatingPayment? && s.ops[c].invoice < |s.db.invoices|
    ensures after == Next(Next(s, c, Go), c, SessionOpened(session, expiresAt))
    ensures after.db.invoices == s.db.invoices && after.clock == s.clock
    ensures after.db.payments ==
            s.db.payments + [Payment(s.ops[c].invoice, Pending, s.db.invoices[s.ops[c].invoice].amounts.total, Some(session), Some(expiresAt))]
    ensures forall d | d in s.ops && d != c :: d in after.ops && after.ops[d] == s.ops[d]
  {
    var awaiting := Next(s, c, Go);
    assert awaiting.ops[c] == AwaitingSession(|s.db.payments|, s.ops[c].due);
    after := Next(awaiting, c, SessionOpened(session, expiresAt));
  }

  /** As soon as two clients have found nothing to reuse for one invoice, their next steps give it two live payments. */
  lemma OverlapOpensTwo(s: State, c: nat, d: nat, first: string, second: string, expiresAt: int) returns (after: State)
    requires c != d && c in s.ops && d in s.ops && s.ops[c].CreatingPayment? && s.ops[d].CreatingPayment?
    requires s.ops[c].invoice == s.ops[d].invoice < |s.db.invoices| && s.clock < expiresAt
    ensures after == Next(Next(Next(Next(s, c, Go), c, SessionOpened(first, expiresAt)), d, Go), d, SessionOpened(second, expiresAt))
    ensures !OneLive(after.db, after.clock)
  {
    var one := SessionMade(s, c, first, expiresAt);
    after := SessionMade(one, d, second, expiresAt);
    var n := |s.db.payments|;
    assert after.db.payments[n].invoice == after.db.payments[n + 1].invoice;
    assert LivePayment(after.db.payments[n], after.clock) && LivePayment(after.db.payments[n + 1], after.clock);
  }
}
