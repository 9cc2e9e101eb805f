/** When a request that is already settled can still be applied. */
module CardApprovals {
  import opened Base
  import opened CardSnapshots
  import opened CardTables
  import opened CardProtocol
  import opened CardSafety
  import Fresh

  /** Client `c` is a reviewer about to apply the request. */
  ghost predicate InFlight(s: State, c: nat, id: string) {
    c in s.ops && (s.ops[c] == Approving(id) || (s.ops[c].Saving? && s.ops[c].request == Some(id)))
  }

  /** The edit passes the checks of `update` on this body: its content covers the default language, its link ids exist. */
  predicate Applies(b: Body, input: UpdateInput) {
    && (input.content.Some? ==> OrElse(input.defaultLocale, b.design.defaultLocale) in Locales(input.content.value))
    && (input.links.Some? ==> KeptIds(input.links.value) <= b.links.Keys)
  }

  /** A reviewer is about to apply the request to the very version its payload names, and the payload fits it. */
  ghost predicate CanApply(s: State, id: string) {
    && id in s.db.requests && !s.db.deleted
    && s.db.requests[id].payload.revision == s.db.revision && Applies(s.db.body, s.db.requests[id].payload)
    && exists c :: InFlight(s, c, id)
  }

  lemma UpdateSucceeds(b: Body, input: UpdateInput, template: Option<Template>, ids: seq<string>)
    requires IdsMatch(input, ids) && (input.links.Some? ==> FreshIds(b.links, input.links.value, ids))
    ensures UpdatedBody(b, input, template, ids).Some? <==> (input.links.Some? ==> KeptIds(input.links.value) <= b.links.Keys)
  {
    if input.links.Some? {
      LinksReplacedInFull(b.links, input.links.value, ids);
    }
  }

  lemma SomeIds(b: Body, input: UpdateInput) returns (ids: seq<string>)
    ensures IdsMatch(input, ids) && (input.links.Some? ==> FreshIds(b.links, input.links.value, ids))
  {
    if input.links.Some? {
      ids := Fresh.NewNames(b.links.Keys + KeptIds(input.links.value), |input.links.value|);
    } else {
      ids := [];
    }
  }

  function TemplateFor(d: Design, input: UpdateInput): Option<Template> {
    if input.templateKey.Some? && input.templateKey.value != d.templateKey then Some(Template(input.templateKey.value, 1)) else None
  }

  lemma SaveNow(s: State, c: nat, id: string) returns (ids: seq<string>)
    requires c in s.ops && s.ops[c].Saving? && s.ops[c].request == Some(id) && !s.db.deleted
    requires s.ops[c].input.revision == s.db.revision && Applies(s.db.body, s.ops[c].input)
    ensures CommittedFor(Next(s, c, CommitSave(ids)), id)
  {
    var op := s.ops[c];
    ids := SomeIds(s.db.body, op.input);
    UpdateSucceeds(s.db.body, op.input, op.template, ids);
    var s' := Next(s, c, CommitSave(ids));
    assert s'.commits == s.commits + [Commit(op.input, op.template, ids, op.request)];
    assert s'.commits[|s.commits|].request == Some(id);
  }

  lemma RunOne(s: State, c: nat, step: Step)
    ensures Run(s, [(c, step)]) == Next(s, c, step)
  {
    assert [(c, step)][..0] == [];
  }

  lemma RunTwo(s: State, c: nat, first: Step, second: Step)
    ensures Run(s, [(c, first), (c, second)]) == Next(Next(s, c, first), c, second)
  {
    assert [(c, first), (c, second)][..1] == [(c, first)];
    RunOne(s, c, first);
  }

  lemma ApplyNow(s: State, c: nat, id: string) returns (steps: seq<(nat, Step)>)
    requires Inv(s) && CanApply(s, id) && InFlight(s, c, id)
    ensures CommittedFor(Run(s, steps), id)
  {
    assert OpTrue(s, s.ops[c]);
    var payload := s.db.requests[id].payload;
    if s.ops[c].Saving? {
      var ids := SaveNow(s, c, id);
      steps := [(c, CommitSave(ids))];
      RunOne(s, c, CommitSave(ids));
    } else {
      var template := TemplateFor(s.db.body.design, payload);
      var s1 := Next(s, c, LoadForApproval(template));
      assert s1 == SetOp(s, c, Saving(payload, template, Some(id)));
      var ids := SaveNow(s1, c, id);
      steps := [(c, LoadForApproval(template)), (c, CommitSave(ids))];
      RunTwo(s, c, LoadForApproval(template), CommitSave(ids));
    }
  }

  // ---- Otherwise never ----

  lemma BodyMoves(s: State, c: nat, step: Step)
    ensures Moves(s, Next(s, c, step))
  {
    if c in s.ops {
      BodyMovesOn(s, c, s.ops[c], step);
    }
  }

  /** The revision never falls, a deletion stays, and at one revision there is one body and one history. */
  predicate Moves(s: State, s': State) {
    && s.db.revision <= s'.db.revision && (s.db.deleted ==> s'.db.deleted)
    && (s'.db.revision == s.db.revision ==> s'.db.body == s.db.body && s'.commits == s.commits)
  }

  lemma BodyMovesOn(s: State, c: nat, op: Op, step: Step)
    ensures Moves(s, StepOn(s, c, op, step))
  {
  }

  lemma PayloadStays(s: State, c: nat, step: Step, id: string)
    requires Inv(s) && id in s.db.requests
    ensures id in Next(s, c, step).db.requests && Next(s, c, step).db.requests[id].payload == s.db.requests[id].payload
  {
    if c in s.ops {
      PayloadStaysOn(s, c, s.ops[c], step, id);
    } else {
      PayloadStaysBegin(s, c, step, id);
    }
  }

  lemma PayloadStaysOn(s: State, c: nat, op: Op, step: Step, id: string)
    requires id in s.db.requests
    ensures id in StepOn(s, c, op, step).db.requests && StepOn(s, c, op, step).db.requests[id].payload == s.db.requests[id].payload
  {
  }

  lemma PayloadStaysBegin(s: State, c: nat, step: Step, id: string)
    requires id in s.db.requests
    ensures id in StepBegin(s, c, step).db.requests && StepBegin(s, c, step).db.requests[id].payload == s.db.requests[id].payload
  {
  }

  lemma NoNewReviewer(s: State, c: nat, step: Step, id: string, d: nat)
    requires id in s.db.requests && s.db.requests[id].status != Pending && InFlight(Next(s, c, step), d, id)
    ensures InFlight(s, d, id)
  {
  }

  /** Whoever commits the request could apply it. */
  lemma CommitsOnlyIfCan(s: State, c: nat, step: Step, id: string)
    requires Inv(s) && id in s.db.requests && !CommittedFor(s, id) && CommittedFor(Next(s, c, step), id)
    ensures CanApply(s, id)
  {
    var s' := Next(s, c, step);
    assert c in s.ops && s.ops[c].Saving? && step.CommitSave?;
    var op := s.ops[c];
    assert s'.commits == s.commits + [Commit(op.input, op.template, step.ids, op.request)];
    CommitIsFor(s, s', id);
    assert InFlight(s, c, id);
    assert OpTrue(s, op);
    UpdateSucceeds(s.db.body, op.input, op.template, step.ids);
  }

  lemma CommitIsFor(s: State, s': State, id: string)
    requires |s'.commits| == |s.commits| + 1 && s'.commits[..|s.commits|] == s.commits
    requires !CommittedFor(s, id) && CommittedFor(s', id)
    ensures s'.commits[|s.commits|].request == Some(id)
  {
    var i :| 0 <= i < |s'.commits| && s'.commits[i].request == Some(id);
  }

  lemma CannotStays(s: State, c: nat, step: Step, id: string)
    requires Inv(s) && id in s.db.requests && s.db.requests[id].status != Pending
    requires s.db.requests[id].payload.revision <= s.db.revision && !CanApply(s, id)
    ensures !CanApply(Next(s, c, step), id)
  {
    var s' := Next(s, c, step);
    BodyMoves(s, c, step);
    PayloadStays(s, c, step, id);
    if CanApply(s', id) {
      var d :| InFlight(s', d, id);
      NoNewReviewer(s, c, step, id, d);
    }
  }

  lemma {:induction false} CannotForever(s: State, steps: seq<(nat, Step)>, id: string)
    requires Inv(s) && id in s.db.requests && s.db.requests[id].status != Pending && !CommittedFor(s, id)
    requires s.db.requests[id].payload.revision <= s.db.revision && !CanApply(s, id)
    ensures var now := Run(s, steps);
            && !CommittedFor(now, id) && !CanApply(now, id) && Inv(now) && id in now.db.requests
            && now.db.requests[id].status != Pending && now.db.requests[id].payload.revision <= now.db.revision
  {
    if steps != [] {
      var n := |steps| - 1;
      CannotForever(s, steps[..n], id);
      var prior := Run(s, steps[..n]);
      var c, step := steps[n].0, steps[n].1;
      RunInv(s, steps);
      NeverPendingAgain(s, steps, id);
      BodyMoves(prior, c, step);
      PayloadStays(prior, c, step, id);
      CannotStays(prior, c, step, id);
      if CommittedFor(Next(prior, c, step), id) {
        CommitsOnlyIfCan(prior, c, step, id);
      }
    }
  }

  ghost predicate EverApplied(s: State, id: string) {
    exists steps: seq<(nat, Step)> :: CommittedFor(Run(s, steps), id)
  }

  /**
   * A settled request that was not applied, and whose payload names no future revision, can still be
   * applied exactly when a reviewer is about to apply it, the card is still the version the payload
   * names, and the payload passes the checks on it.
   */
  lemma AppliedExactly(s: State, id: string)
    requires Inv(s) && id in s.db.requests && s.db.requests[id].status != Pending && !CommittedFor(s, id)
    requires s.db.requests[id].payload.revision <= s.db.revision
    ensures EverApplied(s, id) <==> CanApply(s, id)
  {
    if CanApply(s, id) {
      var c :| InFlight(s, c, id);
      var steps := ApplyNow(s, c, id);
      assert CommittedFor(Run(s, steps), id);
    } else {
      forall steps: seq<(nat, Step)> ensures !CommittedFor(Run(s, steps), id) {
        CannotForever(s, steps, id);
      }
    }
  }
}
