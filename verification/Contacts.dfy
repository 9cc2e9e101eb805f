/**
 * Contacts of one organisation: captured by the public form, confirmed from a scan, sent in by another
 * system or typed in by hand; edited, and deleted softly. The public form looks for a duplicate in one
 * transaction and inserts in the next; the other capturing paths do both in one. E-mail addresses and
 * telephone numbers are the normalised ones.
 */
module Contacts {
  import opened Base

  datatype Source = CardForm | Scan | Badge | Import | Manual

  /** `job`: the scan the contact came from, kept for the record. */
  datatype Contact = Contact(source: Source, email: Option<string>, phone: Option<string>, capturedAt: int,
                             duplicateOf: Option<string>, deleted: bool, job: Option<string>)

  datatype Purpose = Storage | Marketing

  datatype Consent = Consent(contact: string, purpose: Purpose, granted: bool)

  datatype JobStatus = Waiting | Processing | Review | Saved | Discarded | Failed

  datatype Job = Job(badge: bool, status: JobStatus, contact: Option<string>)

  datatype Tables = Tables(contacts: map<string, Contact>, consents: seq<Consent>, jobs: map<string, Job>)

  // ---- Duplicates ----

  predicate Given(key: Option<string>) {
    key.Some? && key.value != ""
  }

  predicate Matches(x: Contact, email: Option<string>, phone: Option<string>) {
    !x.deleted && ((Given(email) && x.email == email) || (Given(phone) && x.phone == phone))
  }

  /** `match` is an earliest contact with this address or number, if there is any. */
  ghost predicate Found(t: Tables, email: Option<string>, phone: Option<string>, found: Option<string>) {
    if found.None? then forall id | id in t.contacts :: !Matches(t.contacts[id], email, phone)
    else
      && found.value in t.contacts && Matches(t.contacts[found.value], email, phone)
      && forall id | id in t.contacts && Matches(t.contacts[id], email, phone) ::
           t.contacts[found.value].capturedAt <= t.contacts[id].capturedAt
  }

  /** What a new contact links to: the match's own link, or the match. */
  function Link(t: Tables, found: Option<string>): Option<string>
    requires found.Some? ==> found.value in t.contacts
  {
    if found.None? then None
    else if t.contacts[found.value].duplicateOf.Some? then t.contacts[found.value].duplicateOf
    else found
  }

  // ---- Transactions ----

  function Captured(t: Tables, id: string, x: Contact, marketing: bool): Tables {
    t.(contacts := t.contacts[id := x], consents := t.consents + [Consent(id, Storage, true), Consent(id, Marketing, marketing)])
  }

  predicate HasSaved(j: Job) {
    j.status == Saved && j.contact.Some?
  }

  /** `confirm` of a scan: a job saved with its contact is left alone, any other gets a contact. */
  function Confirmed(t: Tables, job: string, id: string, email: Option<string>, phone: Option<string>, link: Option<string>,
                     marketing: bool, now: int): Tables
    requires job in t.jobs
  {
    var j := t.jobs[job];
    if HasSaved(j) then t
    else
      var x := Contact(if j.badge then Badge else Scan, email, phone, now, link, false, Some(job));
      Captured(t, id, x, marketing).(jobs := t.jobs[job := j.(status := Saved, contact := Some(id))])
  }

  function SetJob(t: Tables, job: string, status: JobStatus): Tables
    requires job in t.jobs
  {
    t.(jobs := t.jobs[job := t.jobs[job].(status := status)])
  }

  function DiscardJob(t: Tables, job: string): Tables
    requires job in t.jobs
  {
    if t.jobs[job].status in {Waiting, Processing, Review, Failed} then SetJob(t, job, Discarded) else t
  }

  /** A manual contact has no consent rows and is never marked as a duplicate. */
  function AddedByHand(t: Tables, id: string, email: Option<string>, phone: Option<string>, now: int): Tables {
    t.(contacts := t.contacts[id := Contact(Manual, email, phone, now, None, false, None)])
  }

  function Edited(t: Tables, id: string, email: Option<string>, phone: Option<string>): Tables
    requires id in t.contacts
  {
    if t.contacts[id].deleted then t else t.(contacts := t.contacts[id := t.contacts[id].(email := email, phone := phone)])
  }

  function Removed(t: Tables, id: string): Tables
    requires id in t.contacts
  {
    t.(contacts := t.contacts[id := t.contacts[id].(deleted := true)])
  }

  // ---- What the rows keep between transactions ----

  /** `r` may be linked to by a contact captured at `time`. */
  predicate Original(t: Tables, r: string, time: int) {
    r in t.contacts && t.contacts[r].duplicateOf.None? && t.contacts[r].capturedAt <= time
  }

  /** Links never chain: each leads to a contact that has none and was captured no later. */
  predicate FlatLinks(t: Tables, now: int) {
    forall id | id in t.contacts ::
      && t.contacts[id].capturedAt <= now
      && (t.contacts[id].duplicateOf.Some? ==> Original(t, t.contacts[id].duplicateOf.value, t.contacts[id].capturedAt))
  }

  /** Contacts stay, with their time, source and link. */
  predicate ContactsGrow(t: Tables, t': Tables) {
    forall id | id in t.contacts ::
      && id in t'.contacts && t'.contacts[id].duplicateOf == t.contacts[id].duplicateOf
      && t'.contacts[id].capturedAt == t.contacts[id].capturedAt && t'.contacts[id].source == t.contacts[id].source
      && t'.contacts[id].job == t.contacts[id].job
  }

  /** The link of a match leads to an original, captured no later than now. */
  lemma LinkIsOriginal(t: Tables, now: int, email: Option<string>, phone: Option<string>, found: Option<string>)
    requires FlatLinks(t, now) && Found(t, email, phone, found)
    ensures Link(t, found).Some? <==> found.Some?
    ensures found.Some? ==> Original(t, Link(t, found).value, now)
  {
  }

  function Rows(consents: seq<Consent>, contact: string, purpose: Purpose): nat {
    if consents == [] then 0
    else
      var n := |consents| - 1;
      Rows(consents[..n], contact, purpose) + if consents[n].contact == contact && consents[n].purpose == purpose then 1 else 0
  }

  /** The storage consent is granted. */
  predicate ConsentsOk(t: Tables) {
    && (forall i | 0 <= i < |t.consents| ::
          t.consents[i].contact in t.contacts && (t.consents[i].purpose == Storage ==> t.consents[i].granted))
    && (forall id, purpose | id in t.contacts ::
          Rows(t.consents, id, purpose) == if t.contacts[id].source == Manual then 0 else 1)
  }

  lemma {:induction false} NoRows(consents: seq<Consent>, contact: string, purpose: Purpose)
    requires forall i | 0 <= i < |consents| :: consents[i].contact != contact
    ensures Rows(consents, contact, purpose) == 0
  {
    if consents != [] {
      NoRows(consents[..|consents| - 1], contact, purpose);
    }
  }

  lemma TwoMoreRows(consents: seq<Consent>, id: string, marketing: bool, contact: string, purpose: Purpose)
    ensures Rows(consents + [Consent(id, Storage, true), Consent(id, Marketing, marketing)], contact, purpose) ==
            Rows(consents, contact, purpose) + if contact == id then 1 else 0
  {
    var one := consents + [Consent(id, Storage, true)];
    var two := consents + [Consent(id, Storage, true), Consent(id, Marketing, marketing)];
    assert two[..|two| - 1] == one && one[..|one| - 1] == consents;
  }

  lemma CapturedConsents(t: Tables, id: string, x: Contact, marketing: bool)
    requires ConsentsOk(t) && id !in t.contacts && x.source != Manual
    ensures ConsentsOk(Captured(t, id, x, marketing))
  {
    forall other, purpose | other in t.contacts || other == id
      ensures Rows(Captured(t, id, x, marketing).consents, other, purpose) ==
              if other != id && t.contacts[other].source == Manual then 0 else 1
    {
      TwoMoreRows(t.consents, id, marketing, other, purpose);
      if other == id {
        NoRows(t.consents, id, purpose);
      }
    }
  }

  lemma AddedConsents(t: Tables, id: string, email: Option<string>, phone: Option<string>, now: int)
    requires ConsentsOk(t) && id !in t.contacts
    ensures ConsentsOk(AddedByHand(t, id, email, phone, now))
  {
    forall purpose ensures Rows(t.consents, id, purpose) == 0 {
      NoRows(t.consents, id, purpose);
    }
  }

  lemma SameConsents(t: Tables, t': Tables)
    requires ConsentsOk(t) && ContactsGrow(t, t') && t'.contacts.Keys == t.contacts.Keys && t'.consents == t.consents
    ensures ConsentsOk(t')
  {
  }

  /** The contact's consent rows for the purpose say just this. */
  predicate Answered(consents: seq<Consent>, contact: string, purpose: Purpose, granted: bool) {
    && (exists i | 0 <= i < |consents| :: consents[i] == Consent(contact, purpose, granted))
    && (forall i | 0 <= i < |consents| && consents[i].contact == contact && consents[i].purpose == purpose :: consents[i].granted == granted)
  }

  /** The contact is there, with this address, number, scan and link. */
  predicate Holds(t: Tables, id: string, email: Option<string>, phone: Option<string>, job: Option<string>, link: Option<string>) {
    && id in t.contacts && !t.contacts[id].deleted && t.contacts[id].email == email && t.contacts[id].phone == phone
    && t.contacts[id].job == job && t.contacts[id].duplicateOf == link
  }

  lemma CapturedAnswers(t: Tables, id: string, x: Contact, marketing: bool)
    requires ConsentsOk(t) && id !in t.contacts
    ensures Answered(Captured(t, id, x, marketing).consents, id, Storage, true)
    ensures Answered(Captured(t, id, x, marketing).consents, id, Marketing, marketing)
  {
    var rows, n := Captured(t, id, x, marketing).consents, |t.consents|;
    assert rows[n] == Consent(id, Storage, true) && rows[n + 1] == Consent(id, Marketing, marketing);
    assert forall i | 0 <= i < n :: rows[i] == t.consents[i] && rows[i].contact != id;
  }

  predicate Sound(t: Tables, now: int) {
    FlatLinks(t, now) && ConsentsOk(t)
  }

  lemma CapturedSound(t: Tables, id: string, x: Contact, marketing: bool, now: int)
    requires Sound(t, now) && id !in t.contacts && x.source != Manual && x.capturedAt == now
    requires x.duplicateOf.Some? ==> Original(t, x.duplicateOf.value, now)
    ensures Sound(Captured(t, id, x, marketing), now) && ContactsGrow(t, Captured(t, id, x, marketing))
  {
    CapturedConsents(t, id, x, marketing);
  }

  lemma ConfirmedSound(t: Tables, job: string, id: string, email: Option<string>, phone: Option<string>, found: Option<string>,
                       marketing: bool, now: int)
    requires Sound(t, now) && job in t.jobs && id !in t.contacts && Found(t, email, phone, found)
    ensures var t' := Confirmed(t, job, id, email, phone, Link(t, found), marketing, now); Sound(t', now) && ContactsGrow(t, t')
  {
    LinkIsOriginal(t, now, email, phone, found);
    var x := Contact(if t.jobs[job].badge then Badge else Scan, email, phone, now, Link(t, found), false, Some(job));
    CapturedSound(t, id, x, marketing, now);
  }

  // ---- The rows in place ----

  class ContactStore {
    var contacts: map<string, Contact>
    var consents: seq<Consent>
    var jobs: map<string, Job>

    function View(): Tables
      reads this
    {
      Tables(contacts, consents, jobs)
    }

    constructor ()
      ensures View() == Tables(map[], [], map[])
      ensures forall now :: Sound(View(), now)
    {
      contacts, consents, jobs := map[], [], map[];
    }

    /** The query, row by row. */
    method FindMatch(email: Option<string>, phone: Option<string>) returns (found: Option<string>)
      ensures Found(View(), email, phone, found)
    {
      found := None;
      var left := contacts.Keys;
      while left != {}
        invariant left <= contacts.Keys
        invariant found.Some? ==> found.value in contacts && Matches(contacts[found.value], email, phone)
        invariant forall id | id in contacts && id !in left && Matches(contacts[id], email, phone) ::
                    found.Some? && contacts[found.value].capturedAt <= contacts[id].capturedAt
      {
        var id :| id in left;
        left := left - {id};
        if Matches(contacts[id], email, phone) && (found.None? || contacts[id].capturedAt < contacts[found.value].capturedAt) {
          found := Some(id);
        }
      }
    }

    method FindDuplicate(email: Option<string>, phone: Option<string>) returns (found: Option<string>, link: Option<string>)
      ensures Found(View(), email, phone, found) && link == Link(View(), found)
      ensures link.Some? <==> exists id | id in contacts :: Matches(contacts[id], email, phone)
    {
      found := FindMatch(email, phone);
      link := if found.Some? && contacts[found.value].duplicateOf.Some? then contacts[found.value].duplicateOf else found;
    }

    method Capture(id: string, x: Contact, marketing: bool)
      modifies this`contacts, this`consents
      ensures View() == Captured(old(View()), id, x, marketing)
    {
      contacts := contacts[id := x];
      consents := consents + [Consent(id, Storage, true), Consent(id, Marketing, marketing)];
    }

    method ConfirmScan(job: string, id: string, email: Option<string>, phone: Option<string>, marketing: bool, now: int)
      returns (result: string, ghost found: Option<string>)
      requires job in jobs
      modifies this
      ensures found.Some? ==> found.value in old(contacts)
      ensures old(HasSaved(jobs[job])) ==> View() == old(View()) && Some(result) == old(jobs)[job].contact
      ensures !old(HasSaved(jobs[job])) ==>
        && Found(old(View()), email, phone, found) && result == id
        && Holds(View(), id, email, phone, Some(job), Link(old(View()), found))
        && (old(ConsentsOk(View()) && id !in contacts) ==>
              Answered(consents, id, Storage, true) && Answered(consents, id, Marketing, marketing))
      ensures View() == Confirmed(old(View()), job, id, email, phone, Link(old(View()), found), marketing, now)
      ensures View().jobs[job].status == Saved && View().jobs[job].contact == Some(result)
      ensures old(Sound(View(), now) && id !in contacts) ==> Sound(View(), now) && ContactsGrow(old(View()), View())
    {
      found := None;
      if HasSaved(jobs[job]) {
        return jobs[job].contact.value, None;
      }
      var m, link := FindDuplicate(email, phone);
      found := m;
      if Sound(View(), now) && id !in contacts {
        ConfirmedSound(View(), job, id, email, phone, m, marketing, now);
      }
      CaptureScan(job, id, email, phone, link, marketing, now);
      result := id;
    }

    method CaptureScan(job: string, id: string, email: Option<string>, phone: Option<string>, link: Option<string>, marketing: bool, now: int)
      requires job in jobs
      modifies this
      ensures View() == Captured(old(View()), id, Contact(if old(jobs)[job].badge then Badge else Scan, email, phone, now, link, false, Some(job)), marketing)
                        .(jobs := old(jobs)[job := old(jobs)[job].(status := Saved, contact := Some(id))])
      ensures Holds(View(), id, email, phone, Some(job), link)
      ensures old(ConsentsOk(View()) && id !in contacts) ==>
        Answered(consents, id, Storage, true) && Answered(consents, id, Marketing, marketing)
    {
      var source := if jobs[job].badge then Badge else Scan;
      var x := Contact(source, email, phone, now, link, false, Some(job));
      if ConsentsOk(View()) && id !in contacts {
        CapturedAnswers(View(), id, x, marketing);
      }
      Capture(id, x, marketing);
      jobs := jobs[job := jobs[job].(status := Saved, contact := Some(id))];
    }

    method Discard(job: string) returns (ok: bool)
      requires job in jobs
      modifies this`jobs
      ensures View() == DiscardJob(old(View()), job)
      ensures ok <==> !(old(jobs)[job].status == Saved || old(jobs)[job].status == Discarded)
    {
      ok := jobs[job].status in {Waiting, Processing, Review, Failed};
      if ok {
        jobs := jobs[job := jobs[job].(status := Discarded)];
      }
    }

    method CreateExternal(id: string, email: Option<string>, phone: Option<string>, marketing: bool, now: int)
      returns (isDuplicate: bool, ghost found: Option<string>)
      modifies this
      ensures Found(old(View()), email, phone, found) && (isDuplicate <==> found.Some?)
      ensures old(Sound(View(), now) && id !in contacts) ==> Sound(View(), now) && ContactsGrow(old(View()), View())
      ensures View() == Captured(old(View()), id, Contact(Import, email, phone, now, Link(old(View()), found), false, None), marketing)
      ensures Holds(View(), id, email, phone, None, Link(old(View()), found))
      ensures old(ConsentsOk(View()) && id !in contacts) ==>
        Answered(consents, id, Storage, true) && Answered(consents, id, Marketing, marketing)
    {
      var m, link := FindDuplicate(email, phone);
      found := m;
      if Sound(View(), now) && id !in contacts {
        LinkIsOriginal(View(), now, email, phone, m);
        CapturedSound(View(), id, Contact(Import, email, phone, now, link, false, None), marketing, now);
      }
      if ConsentsOk(View()) && id !in contacts {
        CapturedAnswers(View(), id, Contact(Import, email, phone, now, link, false, None), marketing);
      }
      isDuplicate := link.Some?;
      Capture(id, Contact(Import, email, phone, now, link, false, None), marketing);
    }

    method AddByHand(id: string, email: Option<string>, phone: Option<string>, now: int)
      modifies this`contacts
      ensures View() == AddedByHand(old(View()), id, email, phone, now)
      ensures old(Sound(View(), now) && id !in contacts) ==> Sound(View(), now) && ContactsGrow(old(View()), View())
      ensures Holds(View(), id, email, phone, None, None)
      ensures forall purpose :: old(Sound(View(), now) && id !in contacts) ==> Rows(consents, id, purpose) == 0
    {
      if ConsentsOk(View()) && id !in contacts {
        AddedConsents(View(), id, email, phone, now);
      }
      contacts := contacts[id := Contact(Manual, email, phone, now, None, false, None)];
    }

    method Edit(id: string, email: Option<string>, phone: Option<string>)
      requires id in contacts
      modifies this`contacts
      ensures View() == Edited(old(View()), id, email, phone)
      ensures old(contacts[id].deleted) ==> View() == old(View())
      ensures !old(contacts[id].deleted) ==> Holds(View(), id, email, phone, old(contacts)[id].job, old(contacts)[id].duplicateOf)
      ensures forall now :: old(Sound(View(), now)) ==> Sound(View(), now)
      ensures ContactsGrow(old(View()), View()) && consents == old(consents) && contacts - {id} == old(contacts) - {id}
    {
      if !contacts[id].deleted {
        contacts := contacts[id := contacts[id].(email := email, phone := phone)];
      }
    }

    method Remove(id: string)
      requires id in contacts
      modifies this`contacts
      ensures View() == Removed(old(View()), id)
      ensures forall now :: old(Sound(View(), now)) ==> Sound(View(), now)
      ensures ContactsGrow(old(View()), View()) && consents == old(consents) && contacts - {id} == old(contacts) - {id}
      ensures forall email, phone :: !Matches(contacts[id], email, phone)
    {
      contacts := contacts[id := contacts[id].(deleted := true)];
    }
  }

  // ---- Clients ----

  /** A visitor's form between lookup and insert; a worker between reading a job and writing its result. */
  datatype Op =
    | Submitting(email: Option<string>, phone: Option<string>, link: Option<string>)
    | Extracting(job: string)

  datatype State = State(db: Tables, clock: int, ops: map<nat, Op>)

  datatype Step =
    | Tick(time: int)
    | LookUp(email: Option<string>, phone: Option<string>, found: Option<string>)
    | Insert(id: string, marketing: bool)
    | Confirm(job: string, id: string, email: Option<string>, phone: Option<string>, found: Option<string>, marketing: bool)
    | DiscardScan(job: string)
    | External(id: string, email: Option<string>, phone: Option<string>, found: Option<string>, marketing: bool)
    | AddManual(id: string, email: Option<string>, phone: Option<string>)
    | EditContact(id: string, email: Option<string>, phone: Option<string>)
    | RemoveContact(id: string)
    | CreateJob(job: string, badge: bool, ready: bool)
    | Extract(job: string)
    | MarkProcessing
    | WriteReview
    | WriteFailed
    | Abandon

  function Start(clock: int): State {
    State(Tables(map[], [], map[]), clock, map[])
  }

  function Drop(s: State, c: nat): State {
    s.(ops := s.ops - {c})
  }

  ghost function StepConfirm(s: State, step: Step): State
    requires step.Confirm?
  {
    if step.job !in s.db.jobs || step.id in s.db.contacts || !Found(s.db, step.email, step.phone, step.found) then s
    else s.(db := Confirmed(s.db, step.job, step.id, step.email, step.phone, Link(s.db, step.found), step.marketing, s.clock))
  }

  ghost function StepExternal(s: State, step: Step): State
    requires step.External?
  {
    if step.id in s.db.contacts || !Found(s.db, step.email, step.phone, step.found) then s
    else s.(db := Captured(s.db, step.id, Contact(Import, step.email, step.phone, s.clock, Link(s.db, step.found), false, None), step.marketing))
  }

  ghost function StepBegin(s: State, c: nat, step: Step): State {
    match step
    case Tick(time) => if s.clock <= time then s.(clock := time) else s
    case LookUp(email, phone, found) =>
      if Found(s.db, email, phone, found) then s.(ops := s.ops[c := Submitting(email, phone, Link(s.db, found))]) else s
    case Confirm(_, _, _, _, _, _) => StepConfirm(s, step)
    case DiscardScan(job) => if job in s.db.jobs then s.(db := DiscardJob(s.db, job)) else s
    case External(_, _, _, _, _) => StepExternal(s, step)
    case AddManual(id, email, phone) => if id in s.db.contacts then s else s.(db := AddedByHand(s.db, id, email, phone, s.clock))
    case EditContact(id, email, phone) => if id in s.db.contacts then s.(db := Edited(s.db, id, email, phone)) else s
    case RemoveContact(id) => if id in s.db.contacts then s.(db := Removed(s.db, id)) else s
    case CreateJob(job, badge, ready) =>
      if job in s.db.jobs then s
      else s.(db := s.db.(jobs := s.db.jobs[job := Job(badge, if ready then Review else Waiting, None)]))
    case Extract(job) =>
      if job in s.db.jobs && s.db.jobs[job].status in {Waiting, Processing} then s.(ops := s.ops[c := Extracting(job)]) else s
    case _ => s
  }

  /** The worker's writes do not look at the status again, except the one that records a failure. */
  function StepOn(s: State, c: nat, op: Op, step: Step): State {
    if step.Abandon? then Drop(s, c)
    else if op.Submitting? then
      if step.Insert? && step.id !in s.db.contacts
      then Drop(s.(db := Captured(s.db, step.id, Contact(CardForm, op.email, op.phone, s.clock, op.link, false, None), step.marketing)), c)
      else s
    else if op.job !in s.db.jobs then s
    else if step.MarkProcessing? then s.(db := SetJob(s.db, op.job, Processing))
    else if step.WriteReview? then Drop(s.(db := SetJob(s.db, op.job, Review)), c)
    else if step.WriteFailed? then
      Drop(if s.db.jobs[op.job].status in {Waiting, Processing} then s.(db := SetJob(s.db, op.job, Failed)) else s, c)
    else s
  }

  ghost function Next(s: State, c: nat, step: Step): State {
    if c in s.ops then StepOn(s, c, s.ops[c], step) else StepBegin(s, c, step)
  }

  ghost function Run(s: State, steps: seq<(nat, Step)>): State {
    if steps == [] then s
    else
      var n := |steps| - 1;
      Next(Run(s, steps[..n]), steps[n].0, steps[n].1)
  }
}
