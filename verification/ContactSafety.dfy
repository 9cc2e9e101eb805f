/** Links and consents, over every interleaving of the paths that create and change contacts. */
module ContactSafety {
  import opened Base
  import opened Contacts

  // ---- Links never chain ----

  predicate LinksOk(s: State) {
    && FlatLinks(s.db, s.clock)
    && (forall c | c in s.ops && s.ops[c].Submitting? && s.ops[c].link.Some? :: Original(s.db, s.ops[c].link.value, s.clock))
  }

  lemma LinksKeep(s: State, s': State, c: nat)
    requires LinksOk(s) && ContactsGrow(s.db, s'.db) && s.clock <= s'.clock
    requires forall d | d in s'.ops && d != c :: d in s.ops && s'.ops[d] == s.ops[d]
    requires c in s'.ops && s'.ops[c].Submitting? && s'.ops[c].link.Some? ==> Original(s.db, s'.ops[c].link.value, s.clock)
    requires forall id | id in s'.db.contacts && id !in s.db.contacts ::
               && s'.db.contacts[id].capturedAt == s.clock
               && (s'.db.contacts[id].duplicateOf.Some? ==> Original(s.db, s'.db.contacts[id].duplicateOf.value, s.clock))
    ensures LinksOk(s')
  {
  }

  // ---- Any step, any run ----

  predicate Inv(s: State) {
    LinksOk(s) && ConsentsOk(s.db)
  }

  lemma CaptureKeeps(s: State, s': State, c: nat, id: string, x: Contact, marketing: bool)
    requires Inv(s) && id !in s.db.contacts && x.source != Manual && x.capturedAt == s.clock
    requires x.duplicateOf.Some? ==> Original(s.db, x.duplicateOf.value, s.clock)
    requires s'.db.contacts == s.db.contacts[id := x] && s'.db.consents == Captured(s.db, id, x, marketing).consents
    requires s'.clock == s.clock && (forall d | d in s'.ops :: d in s.ops && s'.ops[d] == s.ops[d])
    ensures Inv(s') && ContactsGrow(s.db, s'.db)
  {
    LinksKeep(s, s', c);
    CapturedConsents(s.db, id, x, marketing);
    assert ConsentsOk(Captured(s.db, id, x, marketing));
  }

  /** No contact comes or goes. */
  lemma SteadyKeeps(s: State, s': State, c: nat)
    requires Inv(s) && ContactsGrow(s.db, s'.db) && s'.db.contacts.Keys == s.db.contacts.Keys && s'.db.consents == s.db.consents
    requires s.clock <= s'.clock && (forall d | d in s'.ops && d != c :: d in s.ops && s'.ops[d] == s.ops[d])
    requires c in s'.ops && s'.ops[c].Submitting? && s'.ops[c].link.Some? ==> Original(s.db, s'.ops[c].link.value, s.clock)
    ensures Inv(s')
  {
    LinksKeep(s, s', c);
    SameConsents(s.db, s'.db);
  }

  lemma ConfirmKeeps(s: State, c: nat, step: Step)
    requires Inv(s) && step.Confirm?
    ensures Inv(StepConfirm(s, step)) && ContactsGrow(s.db, StepConfirm(s, step).db)
  {
    var s' := StepConfirm(s, step);
    if s' != s {
      LinkIsOriginal(s.db, s.clock, step.email, step.phone, step.found);
      CaptureKeeps(s, s', c, step.id, s'.db.contacts[step.id], step.marketing);
    }
  }

  lemma ExternalKeeps(s: State, c: nat, step: Step)
    requires Inv(s) && step.External?
    ensures Inv(StepExternal(s, step)) && ContactsGrow(s.db, StepExternal(s, step).db)
  {
    var s' := StepExternal(s, step);
    if s' != s {
      LinkIsOriginal(s.db, s.clock, step.email, step.phone, step.found);
      CaptureKeeps(s, s', c, step.id, s'.db.contacts[step.id], step.marketing);
    }
  }

  lemma ManualKeeps(s: State, c: nat, id: string, email: Option<string>, phone: Option<string>)
    requires Inv(s) && c !in s.ops && id !in s.db.contacts
    ensures var s' := s.(db := AddedByHand(s.db, id, email, phone, s.clock)); Inv(s') && ContactsGrow(s.db, s'.db)
  {
    LinksKeep(s, s.(db := AddedByHand(s.db, id, email, phone, s.clock)), c);
    AddedConsents(s.db, id, email, phone, s.clock);
  }

  lemma BeginKeeps(s: State, c: nat, step: Step)
    requires Inv(s) && c !in s.ops
    ensures Inv(StepBegin(s, c, step)) && ContactsGrow(s.db, StepBegin(s, c, step).db)
  {
    if step.Confirm? {
      ConfirmKeeps(s, c, step);
    } else if step.External? {
      ExternalKeeps(s, c, step);
    } else if step.AddManual? && step.id !in s.db.contacts {
      ManualKeeps(s, c, step.id, step.email, step.phone);
    } else {
      if step.LookUp? && Found(s.db, step.email, step.phone, step.found) {
        LinkIsOriginal(s.db, s.clock, step.email, step.phone, step.found);
      }
      SteadyKeeps(s, StepBegin(s, c, step), c);
    }
  }

  lemma OnKeeps(s: State, c: nat, op: Op, step: Step)
    requires Inv(s) && c in s.ops && op == s.ops[c]
    ensures Inv(StepOn(s, c, op, step)) && ContactsGrow(s.db, StepOn(s, c, op, step).db)
  {
    var s' := StepOn(s, c, op, step);
    if op.Submitting? && step.Insert? && step.id !in s.db.contacts {
      CaptureKeeps(s, s', c, step.id, s'.db.contacts[step.id], step.marketing);
    } else {
      SteadyKeeps(s, s', c);
    }
  }

  lemma {:induction false} RunKeeps(clock: int, steps: seq<(nat, Step)>)
    ensures Inv(Run(Start(clock), steps))
  {
    if steps != [] {
      var n := |steps| - 1;
      RunKeeps(clock, steps[..n]);
      var s := Run(Start(clock), steps[..n]);
      if steps[n].0 in s.ops {
        OnKeeps(s, steps[n].0, s.ops[steps[n].0], steps[n].1);
      } else {
        BeginKeeps(s, steps[n].0, steps[n].1);
      }
    }
  }

  /** However the paths interleave, a link leads to a contact that has none itself and was captured no later. */
  lemma LinksAreFlat(clock: int, steps: seq<(nat, Step)>)
    ensures var t := Run(Start(clock), steps).db;
            forall id | id in t.contacts && t.contacts[id].duplicateOf.Some? ::
              var r := t.contacts[id].duplicateOf.value;
              r in t.contacts && r != id && t.contacts[r].duplicateOf.None? && t.contacts[r].capturedAt <= t.contacts[id].capturedAt
  {
    RunKeeps(clock, steps);
    var s := Run(Start(clock), steps);
    forall id | id in s.db.contacts && s.db.contacts[id].duplicateOf.Some?
      ensures Original(s.db, s.db.contacts[id].duplicateOf.value, s.db.contacts[id].capturedAt)
    {
    }
  }

  /** Every contact that was not typed in has exactly one storage and one marketing consent; those typed in have none. */
  lemma ConsentsComplete(clock: int, steps: seq<(nat, Step)>)
    ensures var t := Run(Start(clock), steps).db;
            && (forall id, purpose | id in t.contacts ::
                  Rows(t.consents, id, purpose) == if t.contacts[id].source == Manual then 0 else 1)
            && (forall i | 0 <= i < |t.consents| ::
                  t.consents[i].contact in t.contacts && (t.consents[i].purpose == Storage ==> t.consents[i].granted))
  {
    RunKeeps(clock, steps);
  }

  // ---- What a contact was captured with ----

  predicate Capturing(step: Step) {
    step.Insert? || step.Confirm? || step.External?
  }

  /** Step `k` of the run brings the contact in. */
  ghost predicate CapturedAt(clock: int, steps: seq<(nat, Step)>, id: string, k: nat) {
    k < |steps| && id !in Run(Start(clock), steps[..k]).db.contacts && id in Run(Start(clock), steps[..k + 1]).db.contacts
  }

  /** The consents of the contact are those given in this step; a contact typed in has none. */
  ghost predicate AsGiven(t: Tables, id: string, step: Step) {
    if step.AddManual? then forall i | 0 <= i < |t.consents| :: t.consents[i].contact != id
    else Capturing(step) && Answered(t.consents, id, Storage, true) && Answered(t.consents, id, Marketing, step.marketing)
  }

  function SourceOf(s: State, step: Step): Source {
    match step
    case Insert(_, _) => CardForm
    case Confirm(job, _, _, _, _, _) => if job in s.db.jobs && s.db.jobs[job].badge then Badge else Scan
    case External(_, _, _, _, _) => Import
    case _ => Manual
  }

  /** The address and number of a form are those of its lookup, of any other path those of the step itself. */
  predicate AsSent(s: State, c: nat, step: Step, x: Contact) {
    && x.source == SourceOf(s, step)
    && if step.Insert? then c in s.ops && s.ops[c].Submitting? && x.email == s.ops[c].email && x.phone == s.ops[c].phone
       else (step.Confirm? || step.External? || step.AddManual?) && x.email == step.email && x.phone == step.phone
  }

  lemma StepCaptures(s: State, c: nat, step: Step, id: string)
    requires Inv(s) && id !in s.db.contacts && id in Next(s, c, step).db.contacts
    ensures var t := Next(s, c, step).db;
            && AsGiven(t, id, step) && AsSent(s, c, step, t.contacts[id]) && t.contacts[id].capturedAt == s.clock && !t.contacts[id].deleted
  {
    var t := Next(s, c, step).db;
    if !step.AddManual? {
      assert step.id == id;
      CapturedAnswers(s.db, id, t.contacts[id], step.marketing);
    }
  }

  lemma AnswersStay(s: State, c: nat, step: Step, id: string)
    requires Inv(s) && id in s.db.contacts
    ensures s.db.consents <= Next(s, c, step).db.consents
    ensures forall i | |s.db.consents| <= i < |Next(s, c, step).db.consents| :: Next(s, c, step).db.consents[i].contact != id
  {
  }

  lemma GivenStays(t: Tables, t': Tables, id: string, given: Step)
    requires AsGiven(t, id, given) && t.consents <= t'.consents
    requires forall i | |t.consents| <= i < |t'.consents| :: t'.consents[i].contact != id
    ensures AsGiven(t', id, given)
  {
    if !given.AddManual? {
      AnsweredStays(t.consents, t'.consents, id, Storage, true);
      AnsweredStays(t.consents, t'.consents, id, Marketing, given.marketing);
    }
  }

  lemma AnsweredStays(consents: seq<Consent>, consents': seq<Consent>, id: string, purpose: Purpose, granted: bool)
    requires Answered(consents, id, purpose, granted) && consents <= consents'
    requires forall i | |consents| <= i < |consents'| :: consents'[i].contact != id
    ensures Answered(consents', id, purpose, granted)
  {
    var i :| 0 <= i < |consents| && consents[i] == Consent(id, purpose, granted);
    assert consents'[i] == Consent(id, purpose, granted);
  }

  lemma {:induction false} GivenKept(clock: int, steps: seq<(nat, Step)>, id: string, k: nat)
    requires CapturedAt(clock, steps, id, k)
    ensures var t := Run(Start(clock), steps).db; id in t.contacts && AsGiven(t, id, steps[k].1)
  {
    var n := |steps| - 1;
    var prior := Run(Start(clock), steps[..n]);
    RunKeeps(clock, steps[..n]);
    if k == n {
      assert steps[..k + 1] == steps;
      StepCaptures(prior, steps[n].0, steps[n].1, id);
    } else {
      assert steps[..n][..k] == steps[..k] && steps[..n][..k + 1] == steps[..k + 1];
      GivenKept(clock, steps[..n], id, k);
      ContactStaysIn(prior, steps[n].0, steps[n].1, id);
      AnswersStay(prior, steps[n].0, steps[n].1, id);
      GivenStays(prior.db, Run(Start(clock), steps).db, id, steps[k].1);
    }
  }

  lemma ContactStaysIn(s: State, c: nat, step: Step, id: string)
    requires id in s.db.contacts
    ensures id in Next(s, c, step).db.contacts
  {
  }

  lemma {:induction false} SomeStepCaptured(clock: int, steps: seq<(nat, Step)>, id: string) returns (k: nat)
    requires id in Run(Start(clock), steps).db.contacts
    ensures CapturedAt(clock, steps, id, k)
  {
    var n := |steps| - 1;
    if id in Run(Start(clock), steps[..n]).db.contacts {
      k := SomeStepCaptured(clock, steps[..n], id);
      assert steps[..n][..k] == steps[..k] && steps[..n][..k + 1] == steps[..k + 1];
    } else {
      k := n;
      assert steps[..k + 1] == steps;
    }
  }

  /**
   * Every contact was captured by one step of the run, with the address and number sent; it has a
   * marketing consent granted exactly if that step brought a yes, refused exactly if it brought a no.
   */
  lemma ConsentsAsGiven(clock: int, steps: seq<(nat, Step)>, id: string) returns (k: nat)
    requires id in Run(Start(clock), steps).db.contacts
    ensures CapturedAt(clock, steps, id, k)
    ensures var past := Run(Start(clock), steps[..k]);
            AsSent(past, steps[k].0, steps[k].1, Run(Start(clock), steps[..k + 1]).db.contacts[id])
    ensures var rows, given := Run(Start(clock), steps).db.consents, steps[k].1;
            && (given.AddManual? || Capturing(given))
            && (Consent(id, Marketing, true) in rows <==> Capturing(given) && given.marketing)
            && (Consent(id, Marketing, false) in rows <==> Capturing(given) && !given.marketing)
            && (Consent(id, Storage, true) in rows <==> Capturing(given))
            && Consent(id, Storage, false) !in rows
  {
    k := SomeStepCaptured(clock, steps, id);
    GivenKept(clock, steps, id, k);
    RunKeeps(clock, steps[..k]);
    assert steps[..k + 1][..k] == steps[..k];
    StepCaptures(Run(Start(clock), steps[..k]), steps[k].0, steps[k].1, id);
  }

  // ---- What steps do to scans and contacts ----

  /** Client `c` is the worker that has read the job. */
  predicate Works(s: State, c: nat, job: string) {
    c in s.ops && s.ops[c] == Extracting(job)
  }

  /** The step changes the job's status to this one. */
  ghost predicate Becomes(s: State, c: nat, step: Step, job: string, status: JobStatus)
    requires job in s.db.jobs
  {
    s.db.jobs[job].status != status && job in Next(s, c, step).db.jobs && Next(s, c, step).db.jobs[job].status == status
  }

  /**
   * Which step can move a job where: the worker marks it and writes its result from any status, but a
   * failure only over unfinished work; a discard spares saved jobs; and no job goes back to waiting.
   */
  lemma JobMovesExactly(s: State, c: nat, step: Step, job: string)
    requires job in s.db.jobs
    ensures var from := s.db.jobs[job].status;
            && job in Next(s, c, step).db.jobs
            && !Becomes(s, c, step, job, Waiting)
            && (Becomes(s, c, step, job, Processing) <==> Works(s, c, job) && step.MarkProcessing? && from != Processing)
            && (Becomes(s, c, step, job, Review) <==> Works(s, c, job) && step.WriteReview? && from != Review)
            && (Becomes(s, c, step, job, Failed) <==> Works(s, c, job) && step.WriteFailed? && (from == Waiting || from == Processing))
            && (Becomes(s, c, step, job, Discarded) <==>
                  c !in s.ops && step == DiscardScan(job) && from != Saved && from != Discarded)
            && (Becomes(s, c, step, job, Saved) ==> c !in s.ops && step.Confirm? && step.job == job)
  {
    if c in s.ops {
      JobMovesOn(s, c, s.ops[c], step, job);
    }
  }

  lemma JobMovesOn(s: State, c: nat, op: Op, step: Step, job: string)
    requires c in s.ops && op == s.ops[c] && job in s.db.jobs
    ensures var from, t := s.db.jobs[job].status, StepOn(s, c, op, step).db;
            && job in t.jobs
            && t.jobs[job].status ==
               if op == Extracting(job) && step.MarkProcessing? then Processing
               else if op == Extracting(job) && step.WriteReview? then Review
               else if op == Extracting(job) && step.WriteFailed? && (from == Waiting || from == Processing) then Failed
               else from
  {
  }

  /** A new job waits, or can be reviewed at once if it was read already; a worker takes it up only while it is unfinished. */
  lemma JobsBegin(s: State, c: nat, job: string, badge: bool, ready: bool)
    requires c !in s.ops
    ensures job !in s.db.jobs ==>
              var t := Next(s, c, CreateJob(job, badge, ready)).db;
              job in t.jobs && t.jobs[job].badge == badge && t.jobs[job].contact.None? && t.jobs[job].status == if ready then Review else Waiting
    ensures Works(Next(s, c, Extract(job)), c, job) <==>
            job in s.db.jobs && (s.db.jobs[job].status == Waiting || s.db.jobs[job].status == Processing)
  {
  }

  /** Editing and removing take effect on the one contact, and only then; a removed contact is not edited. */
  lemma ContactsChange(s: State, c: nat, id: string, email: Option<string>, phone: Option<string>)
    requires c !in s.ops && id in s.db.contacts
    ensures var t := Next(s, c, EditContact(id, email, phone)).db;
            && t.contacts - {id} == s.db.contacts - {id} && id in t.contacts
            && if s.db.contacts[id].deleted then t == s.db else t.contacts[id].email == email && t.contacts[id].phone == phone
    ensures var t := Next(s, c, RemoveContact(id)).db;
            t.contacts - {id} == s.db.contacts - {id} && id in t.contacts && t.contacts[id].deleted
  {
  }
}
