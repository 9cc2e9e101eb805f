/** Three runs that mark where the promises of the card protocol stop. */
module CardExamples {
  import opened Base
  import opened CardSnapshots
  import opened CardTables
  import opened CardProtocol

  lemma RunSnoc(s: State, steps: seq<(nat, Step)>, c: nat, step: Step)
    ensures Run(s, steps + [(c, step)]) == Next(Run(s, steps), c, step)
  {
    var longer := steps + [(c, step)];
    assert longer[..|steps|] == steps;
  }

  /** An edit of the section order alone. */
  function Edit(revision: int): UpdateInput {
    UpdateInput(revision, None, None, None, Some(Null), None, None, None, None, None, None)
  }

  lemma EditKeepsBody(t: Tables, input: UpdateInput)
    requires input == Edit(t.revision) && t.body.design.sectionOrder == Null && !t.deleted
    ensures Checked(t.body.design, input, None) && IdsMatch(input, [])
    ensures CommitUpdate(t, input, None, []) == (t.(revision := t.revision + 1), Ok(()))
  {
  }

  lemma RunTwice(s: State, steps: seq<(nat, Step)>, c: nat, first: Step, second: Step)
    ensures Run(s, steps + [(c, first), (c, second)]) == Next(Next(Run(s, steps), c, first), c, second)
  {
    RunSnoc(s, steps, c, first);
    RunSnoc(s, steps + [(c, first)], c, second);
    assert steps + [(c, first), (c, second)] == steps + [(c, first)] + [(c, second)];
  }

  function WithRequest(s: State, payload: UpdateInput, status: RequestStatus): State {
    s.(db := s.db.(requests := map["r" := Request("u", payload, 1, status)]))
  }

  lemma SubmitSteps(s: State, payload: UpdateInput)
    requires s.ops == map[] && s.db.requests == map[] && !s.db.deleted && s.db.revision == 1
    ensures Next(Next(s, 0, LoadForSubmit("u", payload)), 0, CommitSubmit("r")) == WithRequest(s, payload, Pending)
  {
    var s1 := Next(s, 0, LoadForSubmit("u", payload));
    assert s1 == s.(ops := map[0 := Submitting("u", payload, 1)]);
    assert s1.ops - {0} == map[];
    assert WithdrawPending(map[], "u") == map[];
  }

  lemma ApproveSteps(s: State)
    requires s.ops == map[1 := Approving("r")] && !s.db.deleted && s.db.body.design.sectionOrder == Null
    requires "r" in s.db.requests && s.db.requests["r"].payload == Edit(s.db.revision)
    ensures Next(Next(s, 1, LoadForApproval(None)), 1, CommitSave([])) ==
            s.(db := s.db.(revision := s.db.revision + 1), versions := s.versions + [s.db.body],
               commits := s.commits + [Commit(Edit(s.db.revision), None, [], Some("r"))],
               ops := map[1 := Finishing("r", Approved)])
  {
    var input := Edit(s.db.revision);
    EditKeepsBody(s.db, input);
    var s1 := Next(s, 1, LoadForApproval(None));
    assert s1 == s.(ops := map[1 := Saving(input, None, Some("r"))]);
    assert IdsFresh(s1, input, []);
  }

  lemma EditSteps(s: State)
    requires 2 !in s.ops && !s.db.deleted && s.db.body.design.sectionOrder == Null
    ensures Next(Next(s, 2, LoadForSave(Edit(s.db.revision), None)), 2, CommitSave([])) ==
            s.(db := s.db.(revision := s.db.revision + 1), versions := s.versions + [s.db.body],
               commits := s.commits + [Commit(Edit(s.db.revision), None, [], None)])
  {
    var input := Edit(s.db.revision);
    EditKeepsBody(s.db, input);
    var s1 := Next(s, 2, LoadForSave(input, None));
    assert s1 == s.(ops := s.ops[2 := Saving(input, None, None)]);
    assert s1.ops - {2} == s.ops;
    assert IdsFresh(s1, input, []);
  }

  /** A run after which a reviewer has read the pending request `r` and is about to apply it. */
  lemma UnderReview(s: State, payload: UpdateInput) returns (steps: seq<(nat, Step)>)
    requires s.ops == map[] && s.db.requests == map[] && !s.db.deleted && s.db.revision == 1
    ensures Run(s, steps) == WithRequest(s, payload, Pending).(ops := map[1 := Approving("r")])
  {
    steps := [] + [(0, LoadForSubmit("u", payload)), (0, CommitSubmit("r"))];
    RunTwice(s, [], 0, LoadForSubmit("u", payload), CommitSubmit("r"));
    SubmitSteps(s, payload);
    RunSnoc(s, steps, 1, LoadForReview("r", true));
    steps := steps + [(1, LoadForReview("r", true))];
  }

  /**
   * A reviewer has read a pending request; its author withdraws it, and withdrawal succeeds; the
   * reviewer's call goes on, applies the payload, and in the end overwrites `withdrawn` by `approved`.
   */
  lemma WithdrawnYetApplied(slug: string, owner: string, template: Template, locale: string, name: string)
    returns (steps: seq<(nat, Step)>)
    ensures var now := Run(Start(slug, owner, template, locale, name), steps);
            && "r" in now.db.requests && now.db.requests["r"].status == Withdrawn && CommittedFor(now, "r")
            && Next(now, 1, CommitFinish).db.requests == map["r" := Request("u", Edit(1), 1, Approved)]
  {
    var s := Start(slug, owner, template, locale, name);
    steps := UnderReview(s, Edit(1));
    RunSnoc(s, steps, 0, Withdraw("r", "u"));
    steps := steps + [(0, Withdraw("r", "u"))];
    var withdrawn := Run(s, steps);
    WithdrawStep(s);
    RunTwice(s, steps, 1, LoadForApproval(None), CommitSave([]));
    steps := steps + [(1, LoadForApproval(None)), (1, CommitSave([]))];
    ApproveSteps(withdrawn);
    FinishStep(Run(s, steps));
  }

  lemma WithdrawStep(s: State)
    ensures Next(WithRequest(s, Edit(1), Pending).(ops := map[1 := Approving("r")]), 0, Withdraw("r", "u"))
         == WithRequest(s, Edit(1), Withdrawn).(ops := map[1 := Approving("r")])
  {
  }

  lemma FinishStep(s: State)
    requires s.ops == map[1 := Finishing("r", Approved)] && s.db.requests == map["r" := Request("u", Edit(1), 1, Withdrawn)]
    requires |s.commits| == 1 && s.commits[0].request == Some("r")
    ensures Next(s, 1, CommitFinish).db.requests == map["r" := Request("u", Edit(1), 1, Approved)] && CommittedFor(s, "r")
  {
    assert s.commits[0].request == Some("r");
  }

  /**
   * A request carries a revision in its payload beside the base revision the service notes. If the
   * payload names the next revision, an edit between review and commit makes the payload land on a
   * version that is not the request's base.
   */
  lemma AppliedOffItsBase(slug: string, owner: string, template: Template, locale: string, name: string)
    returns (steps: seq<(nat, Step)>)
    ensures var now := Run(Start(slug, owner, template, locale, name), steps);
            && now.db.requests == map["r" := Request("u", Edit(2), 1, Pending)]
            && |now.commits| == 2 && now.commits[1] == Commit(Edit(2), None, [], Some("r"))
  {
    var s := Start(slug, owner, template, locale, name);
    steps := UnderReview(s, Edit(2));
    var reviewed := Run(s, steps);
    RunTwice(s, steps, 2, LoadForSave(Edit(1), None), CommitSave([]));
    steps := steps + [(2, LoadForSave(Edit(1), None)), (2, CommitSave([]))];
    EditSteps(reviewed);
    var edited := Run(s, steps);
    RunTwice(s, steps, 1, LoadForApproval(None), CommitSave([]));
    steps := steps + [(1, LoadForApproval(None)), (1, CommitSave([]))];
    ApproveSteps(edited);
  }

  /** Changing only the default language leaves a new card without a name in it. */
  lemma DefaultLanguageUncovered(slug: string, owner: string, template: Template, name: string)
    ensures var b := NewCard(slug, owner, template, "ar", name).body;
            var input := Edit(1).(defaultLocale := Some("en"));
            && Covered(b) && Checked(b.design, input, None) && IdsMatch(input, [])
            && UpdatedBody(b, input, None, []).Some? && !Covered(UpdatedBody(b, input, None, []).value)
  {
  }
}
