/** Where overlapping calls make two contacts of one scan or miss a duplicate, and exactly when. */
module ContactRuns {
  import opened Base
  import opened Contacts
  import Fresh

  // ---- One scan, one contact ----

  predicate HasContact(t: Tables, job: string, id: string) {
    id in t.contacts && t.contacts[id].job == Some(job)
  }

  /** The job is saved and has exactly one contact. */
  ghost predicate Single(t: Tables, job: string) {
    && job in t.jobs && t.jobs[job].status == Saved && t.jobs[job].contact.Some?
    && forall id :: HasContact(t, job, id) <==> t.jobs[job].contact == Some(id)
  }

  /** Nothing has been made of the job yet. */
  ghost predicate Unsaved(t: Tables, job: string) {
    && (job in t.jobs ==> t.jobs[job].status != Saved)
    && forall id :: !HasContact(t, job, id)
  }

  /** A worker has read the job and will still write to it. */
  predicate Extracts(s: State, job: string) {
    exists c | c in s.ops :: s.ops[c] == Extracting(job)
  }

  ghost predicate TwoContacts(t: Tables, job: string) {
    exists a, b :: a != b && HasContact(t, job, a) && HasContact(t, job, b)
  }

  ghost predicate EverTwo(s: State, job: string) {
    exists steps: seq<(nat, Step)> :: TwoContacts(Run(s, steps).db, job)
  }

  lemma SingleKept(s: State, c: nat, step: Step, job: string)
    requires Single(s.db, job) && !Extracts(s, job)
    ensures Single(Next(s, c, step).db, job) && !Extracts(Next(s, c, step), job)
  {
    if c in s.ops {
      SingleOn(s, c, s.ops[c], step, job);
    } else {
      SingleBegin(s, c, step, job);
    }
  }

  lemma SingleOn(s: State, c: nat, op: Op, step: Step, job: string)
    requires Single(s.db, job) && !Extracts(s, job) && c in s.ops && op == s.ops[c]
    ensures Single(StepOn(s, c, op, step).db, job) && !Extracts(StepOn(s, c, op, step), job)
  {
  }

  lemma SingleBegin(s: State, c: nat, step: Step, job: string)
    requires Single(s.db, job) && !Extracts(s, job) && c !in s.ops
    ensures Single(StepBegin(s, c, step).db, job) && !Extracts(StepBegin(s, c, step), job)
  {
    if step.Confirm? {
      SingleConfirm(s, step, job);
    }
  }

  lemma SingleConfirm(s: State, step: Step, job: string)
    requires Single(s.db, job) && step.Confirm?
    ensures Single(StepConfirm(s, step).db, job)
  {
  }

  lemma {:induction false} SingleForever(s: State, steps: seq<(nat, Step)>, job: string)
    requires Single(s.db, job) && !Extracts(s, job)
    ensures Single(Run(s, steps).db, job) && !Extracts(Run(s, steps), job)
  {
    if steps != [] {
      var n := |steps| - 1;
      SingleForever(s, steps[..n], job);
      SingleKept(Run(s, steps[..n]), steps[n].0, steps[n].1, job);
    }
  }

  lemma RunTwo(s: State, c: nat, first: Step, second: Step)
    ensures Run(s, [(c, first), (c, second)]) == Next(Next(s, c, first), c, second)
  {
    var both: seq<(nat, Step)> := [(c, first), (c, second)];
    assert both[..1] == [(c, first)] && |both[..1][..0]| == 0;
    assert Run(s, both[..1]) == Next(s, c, first);
  }

  /** The worker writes its result over the saved job, and confirming once more makes a second contact. */
  lemma WrittenOver(s: State, c: nat, job: string) returns (steps: seq<(nat, Step)>)
    requires Single(s.db, job) && c in s.ops && s.ops[c] == Extracting(job)
    ensures TwoContacts(Run(s, steps).db, job)
  {
    var id := Fresh.NewName(s.db.contacts.Keys);
    var confirm := Confirm(job, id, None, None, None, false);
    steps := [(c, WriteReview), (c, confirm)];
    RunTwo(s, c, WriteReview, confirm);
    var reviewed := Next(s, c, WriteReview);
    assert Found(reviewed.db, None, None, None);
    var after := Next(reviewed, c, confirm);
    assert HasContact(after.db, job, id);
    assert HasContact(s.db, job, s.db.jobs[job].contact.value);
    assert HasContact(after.db, job, s.db.jobs[job].contact.value);
  }

  /** A scan that has become one contact can still become another exactly when a worker is not done with it. */
  lemma SecondContactExactly(s: State, job: string)
    requires Single(s.db, job)
    ensures EverTwo(s, job) <==> Extracts(s, job)
  {
    if Extracts(s, job) {
      var c :| c in s.ops && s.ops[c] == Extracting(job);
      var steps := WrittenOver(s, c, job);
      assert TwoContacts(Run(s, steps).db, job);
    } else {
      forall steps: seq<(nat, Step)> ensures !TwoContacts(Run(s, steps).db, job) {
        SingleForever(s, steps, job);
      }
    }
  }

  lemma UnsavedStep(s: State, c: nat, step: Step, job: string)
    requires Unsaved(s.db, job)
    ensures Unsaved(Next(s, c, step).db, job) || Single(Next(s, c, step).db, job)
  {
    if c in s.ops {
      UnsavedOn(s, c, s.ops[c], step, job);
    } else if step.Confirm? {
      UnsavedConfirm(s, step, job);
    } else {
      UnsavedBegin(s, c, step, job);
    }
  }

  lemma UnsavedOn(s: State, c: nat, op: Op, step: Step, job: string)
    requires Unsaved(s.db, job)
    ensures Unsaved(StepOn(s, c, op, step).db, job)
  {
    var t := StepOn(s, c, op, step).db;
    forall id ensures !HasContact(t, job, id) {
      assert !HasContact(s.db, job, id);
    }
  }

  lemma UnsavedConfirm(s: State, step: Step, job: string)
    requires Unsaved(s.db, job) && step.Confirm?
    ensures if step.job == job && StepConfirm(s, step) != s then Single(StepConfirm(s, step).db, job) else Unsaved(StepConfirm(s, step).db, job)
  {
    var t := StepConfirm(s, step).db;
    forall id ensures HasContact(t, job, id) ==> step.job == job && id == step.id {
      assert !HasContact(s.db, job, id);
    }
  }

  lemma UnsavedBegin(s: State, c: nat, step: Step, job: string)
    requires Unsaved(s.db, job) && !step.Confirm?
    ensures Unsaved(StepBegin(s, c, step).db, job)
  {
    var t := StepBegin(s, c, step).db;
    forall id ensures !HasContact(t, job, id) {
      assert !HasContact(s.db, job, id);
    }
  }

  /** If the job is saved, no worker is still at it. */
  predicate Done(s: State, job: string) {
    job in s.db.jobs && s.db.jobs[job].status == Saved ==> !Extracts(s, job)
  }

  /**
   * Over any run in which no worker is still at the job while it is saved, the scan becomes at most
   * one contact, and is saved exactly when it has.
   */
  lemma {:induction false} ScanYieldsOne(clock: int, steps: seq<(nat, Step)>, job: string)
    requires forall k | 0 <= k < |steps| :: Done(Run(Start(clock), steps[..k]), job)
    ensures var t := Run(Start(clock), steps).db;
            (Unsaved(t, job) || Single(t, job)) && !TwoContacts(t, job)
  {
    if steps != [] {
      var n := |steps| - 1;
      forall k | 0 <= k < n ensures Done(Run(Start(clock), steps[..n][..k]), job) {
        assert steps[..n][..k] == steps[..k];
      }
      ScanYieldsOne(clock, steps[..n], job);
      var s := Run(Start(clock), steps[..n]);
      assert Done(s, job);
      if Single(s.db, job) {
        SingleKept(s, steps[n].0, steps[n].1, job);
      } else {
        UnsavedStep(s, steps[n].0, steps[n].1, job);
      }
    }
  }

  // ---- Discarded scans ----

  /** The step is a call that confirms the job. */
  ghost predicate Confirms(s: State, c: nat, step: Step, job: string) {
    && c !in s.ops && step.Confirm? && step.job == job && job in s.db.jobs
    && step.id !in s.db.contacts && Found(s.db, step.email, step.phone, step.found)
  }

  ghost predicate ConfirmedIn(s: State, steps: seq<(nat, Step)>, job: string) {
    exists k | 0 <= k < |steps| :: Confirms(Run(s, steps[..k]), steps[k].0, steps[k].1, job)
  }

  ghost predicate GotContact(t: Tables, t': Tables, job: string) {
    exists id :: id !in t.contacts && HasContact(t', job, id)
  }

  lemma ConfirmedInStep(s: State, steps: seq<(nat, Step)>, job: string)
    requires steps != []
    ensures var n := |steps| - 1;
            ConfirmedIn(s, steps, job) <==> ConfirmedIn(s, steps[..n], job) || Confirms(Run(s, steps[..n]), steps[n].0, steps[n].1, job)
  {
    var n := |steps| - 1;
    if ConfirmedIn(s, steps[..n], job) {
      var k :| 0 <= k < n && Confirms(Run(s, steps[..n][..k]), steps[..n][k].0, steps[..n][k].1, job);
      assert steps[..n][..k] == steps[..k] && steps[..n][k] == steps[k];
    }
    if ConfirmedIn(s, steps, job) {
      var k :| 0 <= k < |steps| && Confirms(Run(s, steps[..k]), steps[k].0, steps[k].1, job);
      if k < n {
        assert steps[..n][..k] == steps[..k] && steps[..n][k] == steps[k];
      }
    }
  }

  /** No step but a confirmation saves the job or adds a contact for it. */
  lemma OnlyConfirmAdds(s: State, c: nat, step: Step, job: string, id: string)
    requires !Confirms(s, c, step, job)
    ensures HasContact(Next(s, c, step).db, job, id) ==> HasContact(s.db, job, id)
  {
    if c in s.ops {
    } else if step.Confirm? {
      OtherConfirm(s, c, step, job, id);
    }
  }

  lemma OtherConfirm(s: State, c: nat, step: Step, job: string, id: string)
    requires step.Confirm? && c !in s.ops && !Confirms(s, c, step, job)
    ensures HasContact(StepConfirm(s, step).db, job, id) ==> HasContact(s.db, job, id)
    ensures job in s.db.jobs ==> job in StepConfirm(s, step).db.jobs && StepConfirm(s, step).db.jobs[job] == s.db.jobs[job]
  {
  }

  lemma OnlyConfirmSaves(s: State, c: nat, step: Step, job: string)
    requires job in s.db.jobs && s.db.jobs[job].status != Saved && !Confirms(s, c, step, job)
    ensures job in Next(s, c, step).db.jobs && Next(s, c, step).db.jobs[job].status != Saved
  {
    if c !in s.ops && step.Confirm? {
      OtherConfirm(s, c, step, job, step.id);
    }
  }

  lemma ConfirmAdds(s: State, c: nat, step: Step, job: string)
    requires Confirms(s, c, step, job) && s.db.jobs[job].status != Saved
    ensures HasContact(Next(s, c, step).db, job, step.id)
  {
  }

  lemma ContactStays(s: State, c: nat, step: Step, job: string, id: string)
    requires HasContact(s.db, job, id)
    ensures HasContact(Next(s, c, step).db, job, id)
  {
  }

  lemma {:induction false} UnconfirmedRun(s: State, steps: seq<(nat, Step)>, job: string)
    requires job in s.db.jobs && s.db.jobs[job].status == Discarded
    ensures var t := Run(s, steps).db;
            if ConfirmedIn(s, steps, job) then GotContact(s.db, t, job)
            else job in t.jobs && t.jobs[job].status != Saved && forall id :: HasContact(t, job, id) ==> HasContact(s.db, job, id)
    ensures forall id | id in s.db.contacts :: id in Run(s, steps).db.contacts
  {
    if steps != [] {
      var n := |steps| - 1;
      var prior, c, step := Run(s, steps[..n]), steps[n].0, steps[n].1;
      UnconfirmedRun(s, steps[..n], job);
      ConfirmedInStep(s, steps, job);
      IdsStay(prior, c, step);
      if ConfirmedIn(s, steps[..n], job) {
        var id :| id !in s.db.contacts && HasContact(prior.db, job, id);
        ContactStays(prior, c, step, job, id);
      } else if Confirms(prior, c, step, job) {
        ConfirmAdds(prior, c, step, job);
      } else {
        OnlyConfirmSaves(prior, c, step, job);
        forall id ensures HasContact(Next(prior, c, step).db, job, id) ==> HasContact(prior.db, job, id) {
          OnlyConfirmAdds(prior, c, step, job, id);
        }
      }
    }
  }

  lemma IdsStay(s: State, c: nat, step: Step)
    ensures forall id | id in s.db.contacts :: id in Next(s, c, step).db.contacts
  {
  }

  /** Discarding prevents nothing: over any run a discarded scan gets a contact exactly when a call confirms it. */
  lemma DiscardedConfirmedExactly(s: State, steps: seq<(nat, Step)>, job: string)
    requires job in s.db.jobs && s.db.jobs[job].status == Discarded
    ensures GotContact(s.db, Run(s, steps).db, job) <==> ConfirmedIn(s, steps, job)
  {
    UnconfirmedRun(s, steps, job);
  }

  // ---- Overlapping forms ----

  predicate HasMatch(t: Tables, email: Option<string>, phone: Option<string>) {
    exists id :: id in t.contacts && Matches(t.contacts[id], email, phone)
  }

  /** Steps by which a contact can come to match: one is added, or edited. */
  predicate Brings(step: Step) {
    step.Insert? || step.Confirm? || step.External? || step.AddManual? || step.EditContact?
  }

  lemma MatchAppears(s: State, c: nat, step: Step, email: Option<string>, phone: Option<string>)
    requires !HasMatch(s.db, email, phone) && HasMatch(Next(s, c, step).db, email, phone)
    ensures Brings(step)
  {
    var id :| id in Next(s, c, step).db.contacts && Matches(Next(s, c, step).db.contacts[id], email, phone);
    assert id in s.db.contacts ==> !Matches(s.db.contacts[id], email, phone);
  }

  /** A step of somebody else's. */
  predicate NotBy(steps: seq<(nat, Step)>, c: nat) {
    forall i | 0 <= i < |steps| :: steps[i].0 != c
  }

  lemma {:induction false} HeldOn(s: State, steps: seq<(nat, Step)>, c: nat)
    requires c in s.ops && NotBy(steps, c)
    ensures c in Run(s, steps).ops && Run(s, steps).ops[c] == s.ops[c]
  {
    if steps != [] {
      HeldOn(s, steps[..|steps| - 1], c);
    }
  }

  lemma {:induction false} MatchBrought(s: State, steps: seq<(nat, Step)>, email: Option<string>, phone: Option<string>) returns (k: nat)
    requires !HasMatch(s.db, email, phone) && HasMatch(Run(s, steps).db, email, phone)
    ensures k < |steps| && Brings(steps[k].1)
    ensures !HasMatch(Run(s, steps[..k]).db, email, phone) && HasMatch(Run(s, steps[..k + 1]).db, email, phone)
  {
    var n := |steps| - 1;
    if HasMatch(Run(s, steps[..n]).db, email, phone) {
      k := MatchBrought(s, steps[..n], email, phone);
      assert steps[..n][..k] == steps[..k] && steps[..n][..k + 1] == steps[..k + 1];
    } else {
      k := n;
      MatchAppears(Run(s, steps[..n]), steps[n].0, steps[n].1, email, phone);
      assert steps[..n + 1] == steps;
    }
  }

  /** A step among others' that brings the first match. */
  ghost predicate BroughtAt(s: State, steps: seq<(nat, Step)>, email: Option<string>, phone: Option<string>, k: nat) {
    k < |steps| && Brings(steps[k].1) &&
    !HasMatch(Run(s, steps[..k]).db, email, phone) && HasMatch(Run(s, steps[..k + 1]).db, email, phone)
  }

  /**
   * A visitor's contact stays unlinked although another matches exactly when none did at the lookup, and
   * a step in between added or edited one that does at the insert.
   */
  lemma MissedExactly(s: State, c: nat, email: Option<string>, phone: Option<string>, found: Option<string>,
                      between: seq<(nat, Step)>, id: string, marketing: bool)
    requires c !in s.ops && Found(s.db, email, phone, found) && NotBy(between, c)
    requires id !in Run(Next(s, c, LookUp(email, phone, found)), between).db.contacts
    ensures var looked := Next(s, c, LookUp(email, phone, found));
            var before := Run(looked, between);
            var after := Next(before, c, Insert(id, marketing));
            && id in after.db.contacts
            && (after.db.contacts[id].duplicateOf.None? <==> !HasMatch(s.db, email, phone))
            && (after.db.contacts[id].duplicateOf.None? && HasMatch(before.db, email, phone) <==>
                found.None? && HasMatch(before.db, email, phone) && exists k :: BroughtAt(looked, between, email, phone, k))
  {
    var looked := Next(s, c, LookUp(email, phone, found));
    var before := Run(looked, between);
    HeldOn(looked, between, c);
    LookedUp(s, c, email, phone, found);
    if !HasMatch(s.db, email, phone) && HasMatch(before.db, email, phone) {
      var k := MatchBrought(looked, between, email, phone);
      assert BroughtAt(looked, between, email, phone, k);
    }
  }

  lemma LookedUp(s: State, c: nat, email: Option<string>, phone: Option<string>, found: Option<string>)
    requires c !in s.ops && Found(s.db, email, phone, found)
    ensures var looked := Next(s, c, LookUp(email, phone, found));
            && looked.db == s.db && c in looked.ops && looked.ops[c].Submitting?
            && (looked.ops[c].link.None? <==> !HasMatch(s.db, email, phone))
  {
  }

  /** Hence a form whose lookup and insert no such step separates is always linked if it has a match. */
  lemma UndisturbedFormLinked(s: State, c: nat, email: Option<string>, phone: Option<string>, found: Option<string>,
                              between: seq<(nat, Step)>, id: string, marketing: bool)
    requires c !in s.ops && Found(s.db, email, phone, found) && NotBy(between, c)
    requires forall i | 0 <= i < |between| :: !Brings(between[i].1)
    requires id !in Run(Next(s, c, LookUp(email, phone, found)), between).db.contacts
    ensures var before := Run(Next(s, c, LookUp(email, phone, found)), between);
            var contacts := Next(before, c, Insert(id, marketing)).db.contacts;
            id in contacts && (HasMatch(before.db, email, phone) ==> contacts[id].duplicateOf.Some?)
  {
    MissedExactly(s, c, email, phone, found, between, id, marketing);
  }

  // ---- Runs that break the promises ----

  /** The worker writes its result over a job saved meanwhile, and confirming once more makes a second contact. */
  lemma SecondContact(s: State, c: nat, d: nat, job: string, a: string, b: string)
    requires c != d && c !in s.ops && d !in s.ops && a != b && a !in s.db.contacts && b !in s.db.contacts
    requires job in s.db.jobs && s.db.jobs[job].status == Waiting
    ensures var saved := Next(Next(s, c, Extract(job)), d, Confirm(job, a, None, None, None, false));
            var after := Next(Next(saved, c, WriteReview), d, Confirm(job, b, None, None, None, false));
            && a in after.db.contacts && after.db.contacts[a].job == Some(job)
            && b in after.db.contacts && after.db.contacts[b].job == Some(job)
  {
    var busy := Next(s, c, Extract(job));
    assert busy == s.(ops := s.ops[c := Extracting(job)]);
    assert Found(s.db, None, None, None);
    var saved := Next(busy, d, Confirm(job, a, None, None, None, false));
    assert saved.ops == busy.ops && saved.db.jobs[job].status == Saved;
    var reviewed := Next(saved, c, WriteReview);
    assert Found(reviewed.db, None, None, None);
  }

  /** A discarded scan can still be confirmed. */
  lemma DiscardedYetConfirmed(s: State, c: nat, job: string, id: string)
    requires c !in s.ops && id !in s.db.contacts && job in s.db.jobs && s.db.jobs[job].status == Review
    ensures var discarded := Next(s, c, DiscardScan(job));
            var after := Next(discarded, c, Confirm(job, id, None, None, None, false));
            && discarded.db.jobs[job].status == Discarded
            && after.db.jobs[job].status == Saved && id in after.db.contacts && after.db.contacts[id].job == Some(job)
  {
  }

  /** Two visitors with one new address whose forms overlap are both taken for the first. */
  lemma TwoOriginals(s: State, c: nat, d: nat, a: string, b: string, email: string)
    requires c != d && c !in s.ops && d !in s.ops && a != b && a !in s.db.contacts && b !in s.db.contacts
    requires Found(s.db, Some(email), None, None)
    ensures var looked := Next(Next(s, c, LookUp(Some(email), None, None)), d, LookUp(Some(email), None, None));
            var after := Next(Next(looked, c, Insert(a, false)), d, Insert(b, false));
            && a in after.db.contacts && b in after.db.contacts
            && after.db.contacts[a].email == after.db.contacts[b].email == Some(email)
            && after.db.contacts[a].duplicateOf == after.db.contacts[b].duplicateOf == None
  {
    var looked := Next(Next(s, c, LookUp(Some(email), None, None)), d, LookUp(Some(email), None, None));
    assert looked == s.(ops := s.ops[c := Submitting(Some(email), None, None)][d := Submitting(Some(email), None, None)]);
    var first := Next(looked, c, Insert(a, false));
    assert first.ops[d] == looked.ops[d] && first.db.contacts.Keys == s.db.contacts.Keys + {a};
  }
}
