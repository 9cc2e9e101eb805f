/** Which review of a request led to the status it has. */
module CardReviews {
  import opened CardTables
  import opened CardProtocol

  /** A review of a pending request decides on this status: refused, moved off its base, or to be applied. */
  predicate Decides(s: State, c: nat, step: Step, id: string, status: RequestStatus) {
    && c !in s.ops && step.LoadForReview? && step.id == id && id in s.db.requests && s.db.requests[id].status == Pending
    && match status
       case Rejected => !step.approve
       case Stale => step.approve && s.db.revision != s.db.requests[id].baseRevision
       case Approved => step.approve && s.db.revision == s.db.requests[id].baseRevision
       case _ => false
  }

  datatype Decision = Decision(id: string, status: RequestStatus)

  function DecisionOf(s: State, c: nat, step: Step): set<Decision> {
    if !step.LoadForReview? then {}
    else set status | status in {Rejected, Stale, Approved} && Decides(s, c, step, step.id, status) :: Decision(step.id, status)
  }

  ghost function Decisions(s: State, steps: seq<(nat, Step)>): set<Decision> {
    if steps == [] then {}
    else
      var n := |steps| - 1;
      Decisions(s, steps[..n]) + DecisionOf(Run(s, steps[..n]), steps[n].0, steps[n].1)
  }

  /** What a client is carrying out was decided, and so was every status but pending and withdrawn. */
  predicate Follows(s: State, decided: set<Decision>) {
    && (forall c | c in s.ops ::
          match s.ops[c]
          case Finishing(id, status) => Decision(id, status) in decided
          case Approving(id) => Decision(id, Approved) in decided
          case Saving(_, _, request) => request.Some? ==> Decision(request.value, Approved) in decided
          case _ => true)
    && (forall id | id in s.db.requests && s.db.requests[id].status !in {Pending, Withdrawn} ::
          Decision(id, s.db.requests[id].status) in decided)
  }

  lemma StepFollows(s: State, c: nat, step: Step, decided: set<Decision>)
    requires Follows(s, decided)
    ensures Follows(Next(s, c, step), decided + DecisionOf(s, c, step))
  {
    if c in s.ops {
      OnFollows(s, c, s.ops[c], step, decided);
      Widen(Next(s, c, step), decided, decided + DecisionOf(s, c, step));
    } else if step.LoadForReview? {
      ReviewFollows(s, c, step, decided);
    } else {
      BeginFollows(s, c, step, decided);
      Widen(Next(s, c, step), decided, decided + DecisionOf(s, c, step));
    }
  }

  lemma Widen(s: State, decided: set<Decision>, more: set<Decision>)
    requires Follows(s, decided) && decided <= more
    ensures Follows(s, more)
  {
  }

  lemma ReviewFollows(s: State, c: nat, step: Step, decided: set<Decision>)
    requires Follows(s, decided) && c !in s.ops && step.LoadForReview?
    ensures Follows(StepBegin(s, c, step), decided + DecisionOf(s, c, step))
  {
    var s' := StepBegin(s, c, step);
    if s' != s {
      var status := if !step.approve then Rejected else if s.db.revision != s.db.requests[step.id].baseRevision then Stale else Approved;
      assert Decides(s, c, step, step.id, status);
      assert Decision(step.id, status) in DecisionOf(s, c, step);
    }
  }

  lemma BeginFollows(s: State, c: nat, step: Step, decided: set<Decision>)
    requires Follows(s, decided) && c !in s.ops && !step.LoadForReview?
    ensures Follows(StepBegin(s, c, step), decided)
  {
  }

  lemma OnFollows(s: State, c: nat, op: Op, step: Step, decided: set<Decision>)
    requires Follows(s, decided) && c in s.ops && op == s.ops[c]
    ensures Follows(StepOn(s, c, op, step), decided)
  {
  }

  lemma {:induction false} RunFollows(s: State, steps: seq<(nat, Step)>)
    requires s.ops == map[] && s.db.requests == map[]
    ensures Follows(Run(s, steps), Decisions(s, steps))
  {
    if steps != [] {
      var n := |steps| - 1;
      RunFollows(s, steps[..n]);
      StepFollows(Run(s, steps[..n]), steps[n].0, steps[n].1, Decisions(s, steps[..n]));
    }
  }

  ghost predicate DecidedAt(s: State, steps: seq<(nat, Step)>, k: nat, id: string, status: RequestStatus) {
    k < |steps| && Decides(Run(s, steps[..k]), steps[k].0, steps[k].1, id, status)
  }

  lemma {:induction false} WhenDecided(s: State, steps: seq<(nat, Step)>, id: string, status: RequestStatus) returns (k: nat)
    requires Decision(id, status) in Decisions(s, steps)
    ensures DecidedAt(s, steps, k, id, status)
  {
    var n := |steps| - 1;
    if Decision(id, status) in Decisions(s, steps[..n]) {
      k := WhenDecided(s, steps[..n], id, status);
      assert steps[..n][..k] == steps[..k];
    } else {
      k := n;
    }
  }

  /**
   * In every run a request is rejected only where a reviewer refused it while it was pending, stale only
   * where one approved it when its card had moved off the base, and approved only where it had not.
   */
  lemma StatusWasDecided(slug: string, owner: string, template: Template, defaultLocale: string, fullName: string,
                         steps: seq<(nat, Step)>, id: string)
    returns (k: nat)
    requires var now := Run(Start(slug, owner, template, defaultLocale, fullName), steps);
             id in now.db.requests && now.db.requests[id].status !in {Pending, Withdrawn}
    ensures var start := Start(slug, owner, template, defaultLocale, fullName);
            DecidedAt(start, steps, k, id, Run(start, steps).db.requests[id].status)
  {
    var start := Start(slug, owner, template, defaultLocale, fullName);
    RunFollows(start, steps);
    k := WhenDecided(start, steps, id, Run(start, steps).db.requests[id].status);
  }

  // ---- And a decision is carried out ----

  predicate NotBy(steps: seq<(nat, Step)>, c: nat) {
    forall k | 0 <= k < |steps| :: steps[k].0 != c
  }

  lemma OthersLeaveIt(s: State, c: nat, d: nat, step: Step, id: string)
    requires c in s.ops && d != c && id in s.db.requests
    ensures c in Next(s, d, step).ops && Next(s, d, step).ops[c] == s.ops[c] && id in Next(s, d, step).db.requests
  {
  }

  lemma {:induction false} StillHeld(s: State, c: nat, steps: seq<(nat, Step)>, id: string)
    requires c in s.ops && NotBy(steps, c) && id in s.db.requests
    ensures c in Run(s, steps).ops && Run(s, steps).ops[c] == s.ops[c] && id in Run(s, steps).db.requests
  {
    if steps != [] {
      var n := |steps| - 1;
      StillHeld(s, c, steps[..n], id);
      OthersLeaveIt(Run(s, steps[..n]), c, steps[n].0, steps[n].1, id);
    }
  }

  /** Whatever others do in between, a refusal ends in a rejected request and an approval off its base in a stale one. */
  lemma DecisionCarriedOut(s: State, c: nat, step: Step, between: seq<(nat, Step)>, id: string, status: RequestStatus)
    requires Decides(s, c, step, id, status) && status != Approved && NotBy(between, c)
    ensures var before := Run(Next(s, c, step), between);
            var after := Next(before, c, CommitFinish);
            && id in before.db.requests && c !in after.ops
            && after.db.requests == before.db.requests[id := before.db.requests[id].(status := status)]
  {
    var decided := Next(s, c, step);
    assert decided.ops[c] == Finishing(id, status);
    StillHeld(decided, c, between, id);
  }
}
