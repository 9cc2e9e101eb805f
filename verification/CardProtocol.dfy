/**
 * Editors, publishers, requesters and reviewers working on one card at the same time. A client's
 * call is a chain of steps: each step is one database read or one transaction, and between two of
 * them any other client may run. Publishing reads the row, the localizations and the links in
 * three steps, so it may see a torn card.
 */
module CardProtocol {
  import opened Base
  import opened CardSnapshots
  import opened CardTables

  /** Where a client is inside a call. */
  datatype Op =
    | Saving(input: UpdateInput, template: Option<Template>, request: Option<string>)
    | RowRead(revision: int, design: Design)
    | ContentsRead(revision: int, design: Design, contents: map<string, Content>)
    | AllRead(revision: int, design: Design, contents: map<string, Content>, rows: seq<LinkRow>)
    | Submitting(user: string, payload: UpdateInput, baseRevision: int)
    | Approving(id: string)
    | Finishing(id: string, status: RequestStatus)

  /** A committed edit, kept for the record: the database itself forgets it. */
  datatype Commit = Commit(input: UpdateInput, template: Option<Template>, ids: seq<string>, request: Option<string>)

  /** `versions[r - 1]` is the body at revision `r`. */
  datatype State = State(db: Tables, ops: map<nat, Op>, versions: seq<Body>, commits: seq<Commit>)

  datatype Step =
    | LoadForSave(input: UpdateInput, template: Option<Template>)
    | CommitSave(ids: seq<string>)
    | ReadRow
    | ReadContents
    | ReadLinks(rows: seq<LinkRow>)
    | CommitPublish(urls: Media, user: string, now: int)
    | Unpublish
    | Remove
    | Offboard(user: string, unpublish: bool, heir: Option<string>)
    | LoadForSubmit(user: string, payload: UpdateInput)
    | CommitSubmit(id: string)
    | Withdraw(id: string, user: string)
    | LoadForReview(id: string, approve: bool)
    | LoadForApproval(template: Option<Template>)
    | CommitFinish
    | Abandon

  function Start(slug: string, owner: string, template: Template, defaultLocale: string, fullName: string): State {
    var db := NewCard(slug, owner, template, defaultLocale, fullName);
    State(db, map[], [db.body], [])
  }

  // ---- One step of client `c`; a step that does not apply changes nothing ----

  function SetOp(s: State, c: nat, op: Op): State {
    s.(ops := s.ops[c := op])
  }

  function Drop(s: State, c: nat): State {
    s.(ops := s.ops - {c})
  }

  /** `update` up to its transaction: load, compare the revision, check template and default language. */
  function StepLoad(s: State, c: nat, input: UpdateInput, template: Option<Template>, request: Option<string>): State {
    if s.db.deleted || s.db.revision != input.revision || !Checked(s.db.body.design, input, template) then Drop(s, c)
    else SetOp(s, c, Saving(input, template, request))
  }

  ghost predicate IdsFresh(s: State, input: UpdateInput, ids: seq<string>) {
    && IdsMatch(input, ids)
    && (input.links.Some? ==> FreshIds(s.db.body.links, input.links.value, ids))
  }

  /** The transaction of `update`; a reviewer goes on to close the request. */
  ghost function StepCommitSave(s: State, c: nat, op: Op, ids: seq<string>): State
    requires op.Saving?
  {
    if !IdsFresh(s, op.input, ids) then s
    else
      var (db, result) := CommitUpdate(s.db, op.input, op.template, ids);
      if result.Err? then Drop(s, c)
      else
        var s' := s.(db := db, versions := s.versions + [db.body],
                     commits := s.commits + [Commit(op.input, op.template, ids, op.request)]);
        if op.request.Some? then SetOp(s', c, Finishing(op.request.value, Approved)) else Drop(s', c)
  }

  function StepCommitPublish(s: State, c: nat, op: Op, urls: Media, user: string, now: int): State
    requires op.AllRead?
  {
    var snapshot := BuildSnapshot(s.db.slug, op.design, op.contents, op.rows, urls);
    if PublishBlockers(snapshot) != [] then Drop(s, c)
    else
      var p := Publication(op.revision, op.design.templateKey, op.design.templateVersion, snapshot, user);
      Drop(s.(db := CommitPublication(s.db, p, now).0), c)
  }

  /** `review` reads the request with its card and decides what to do next. */
  function StepReview(s: State, c: nat, id: string, approve: bool): State {
    if id !in s.db.requests || s.db.requests[id].status != Pending then s
    else if !approve then SetOp(s, c, Finishing(id, Rejected))
    else if s.db.revision != s.db.requests[id].baseRevision then SetOp(s, c, Finishing(id, Stale))
    else SetOp(s, c, Approving(id))
  }

  /** Steps by which a client begins a call or makes a call of one transaction. */
  function StepBegin(s: State, c: nat, step: Step): State {
    match step
    case LoadForSave(input, template) => StepLoad(s, c, input, template, None)
    case ReadRow => if s.db.deleted then s else SetOp(s, c, RowRead(s.db.revision, s.db.body.design))
    case Unpublish => s.(db := SetUnpublished(s.db))
    case Remove => s.(db := SetDeleted(s.db))
    case Offboard(user, unpublish, heir) => s.(db := Offboarded(s.db, user, unpublish, heir))
    case LoadForSubmit(user, payload) =>
      if s.db.deleted then s else SetOp(s, c, Submitting(user, payload, s.db.revision))
    case Withdraw(id, user) => s.(db := WithdrawnBy(s.db, id, user).0)
    case LoadForReview(id, approve) => StepReview(s, c, id, approve)
    case _ => s
  }

  /** Steps by which a client goes on with its call. */
  ghost function StepOn(s: State, c: nat, op: Op, step: Step): State {
    match (op, step)
    case (Saving(_, _, _), CommitSave(ids)) => StepCommitSave(s, c, op, ids)
    case (RowRead(revision, design), ReadContents) => SetOp(s, c, ContentsRead(revision, design, s.db.body.contents))
    case (ContentsRead(revision, design, contents), ReadLinks(rows)) =>
      if Lists(rows, s.db.body.links) then SetOp(s, c, AllRead(revision, design, contents, rows)) else s
    case (AllRead(_, _, _, _), CommitPublish(urls, user, now)) => StepCommitPublish(s, c, op, urls, user, now)
    case (Submitting(user, payload, base), CommitSubmit(id)) =>
      if id in s.db.requests then s else Drop(s.(db := Submitted(s.db, id, user, payload, base)), c)
    case (Approving(id), LoadForApproval(template)) =>
      if id !in s.db.requests then s else StepLoad(s, c, s.db.requests[id].payload, template, Some(id))
    case (Finishing(id, status), CommitFinish) =>
      if id !in s.db.requests then s else Drop(s.(db := Finished(s.db, id, status)), c)
    case (_, Abandon) => Drop(s, c)
    case _ => s
  }

  ghost function Next(s: State, c: nat, step: Step): State {
    if c in s.ops then StepOn(s, c, s.ops[c], step) else StepBegin(s, c, step)
  }

  ghost function Run(s: State, steps: seq<(nat, Step)>): State {
    if steps == [] then s
    else
      var n := |steps| - 1;
      Next(Run(s, steps[..n]), steps[n].0, steps[n].1)
  }

  // ---- What every step keeps ----

  /** The revision counts the commits, and each commit was made on exactly the version its author named. */
  ghost predicate History(s: State) {
    && |s.versions| == s.db.revision == |s.commits| + 1
    && s.versions[s.db.revision - 1] == s.db.body
    && forall i | 0 <= i < |s.commits| :: CommitLinks(s, i)
  }

  ghost predicate CommitLinks(s: State, i: nat)
    requires |s.versions| == |s.commits| + 1 && i < |s.commits|
  {
    var k := s.commits[i];
    && k.input.revision == i + 1
    && IdsMatch(k.input, k.ids) && (k.input.links.Some? ==> FreshIds(s.versions[i].links, k.input.links.value, k.ids))
    && Checked(s.versions[i].design, k.input, k.template)
    && UpdatedBody(s.versions[i], k.input, k.template, k.ids) == Some(s.versions[i + 1])
  }

  predicate IsRevision(s: State, r: int) {
    1 <= r <= |s.versions|
  }

  /** What a client holds is true of the version it read, and children match as long as no edit came between. */
  ghost predicate OpTrue(s: State, op: Op) {
    match op
    case Saving(input, template, request) =>
      && IsRevision(s, input.revision) && Checked(s.versions[input.revision - 1].design, input, template)
      && (request.Some? ==> request.value in s.db.requests && s.db.requests[request.value].payload == input)
    case RowRead(r, design) => IsRevision(s, r) && design == s.versions[r - 1].design
    case ContentsRead(r, design, contents) =>
      && IsRevision(s, r) && design == s.versions[r - 1].design
      && (r == s.db.revision ==> contents == s.db.body.contents)
    case AllRead(r, design, contents, rows) =>
      && IsRevision(s, r) && design == s.versions[r - 1].design
      && (r == s.db.revision ==> contents == s.db.body.contents && Lists(rows, s.db.body.links))
    case Submitting(_, _, base) => IsRevision(s, base)
    case Approving(id) => id in s.db.requests
    case Finishing(id, status) => id in s.db.requests && status != Pending && (status == Approved ==> CommittedFor(s, id))
  }

  ghost predicate CommittedFor(s: State, id: string) {
    exists i | 0 <= i < |s.commits| :: s.commits[i].request == Some(id)
  }

  ghost predicate Ops(s: State) {
    forall c | c in s.ops :: OpTrue(s, s.ops[c])
  }

  ghost predicate PublicationTrue(s: State, p: Publication) {
    && IsRevision(s, p.revision)
    && Shows(p.snapshot, s.db.slug, s.versions[p.revision - 1])
    && p.templateKey == p.snapshot.templateKey && p.templateVersion == p.snapshot.templateVersion
    && PublishBlockers(p.snapshot) == []
  }

  ghost predicate Publications(s: State) {
    && (forall i | 0 <= i < |s.db.publications| :: PublicationTrue(s, s.db.publications[i]))
    && Ordered(s.db.publications)
    && (s.db.status == Published ==> s.db.publications != [] && !s.db.deleted)
  }

  ghost predicate Requests(s: State) {
    && OnePending(s.db.requests)
    && (forall id | id in s.db.requests && s.db.requests[id].status == Approved :: CommittedFor(s, id))
    && (forall i | 0 <= i < |s.commits| && s.commits[i].request.Some? ::
          && s.commits[i].request.value in s.db.requests
          && s.db.requests[s.commits[i].request.value].payload == s.commits[i].input)
  }

  ghost predicate Inv(s: State) {
    History(s) && Ops(s) && Publications(s) && Requests(s)
  }

  lemma StartInv(slug: string, owner: string, template: Template, defaultLocale: string, fullName: string)
    ensures Inv(Start(slug, owner, template, defaultLocale, fullName))
  {
  }

  // ---- Steps that touch neither the body nor the publications ----

  /** `s'` has the same versions, commits, body, publications and slug. */
  predicate SameBody(s: State, s': State) {
    && s'.versions == s.versions && s'.commits == s.commits
    && s'.db.revision == s.db.revision && s'.db.body == s.db.body && s'.db.slug == s.db.slug
    && s'.db.publications == s.db.publications
  }

  /** Requests stay and keep their payload. */
  predicate RequestsGrow(s: State, s': State) {
    forall id | id in s.db.requests :: id in s'.db.requests && s'.db.requests[id].payload == s.db.requests[id].payload
  }

  /** No client but `c` moved. */
  predicate OthersStay(s: State, s': State, c: nat) {
    forall d | d in s'.ops && d != c :: d in s.ops && s'.ops[d] == s.ops[d]
  }

  lemma SameBodyKeeps(s: State, s': State, c: nat)
    requires Inv(s) && SameBody(s, s') && RequestsGrow(s, s') && OthersStay(s, s', c)
    requires c in s'.ops ==> OpTrue(s', s'.ops[c])
    requires s'.db.status == Published ==> s.db.status == Published && s'.db.deleted == s.db.deleted
    ensures History(s') && Ops(s') && Publications(s')
  {
    assert forall i | 0 <= i < |s.commits| :: CommitLinks(s, i) ==> CommitLinks(s', i);
    forall d | d in s'.ops ensures OpTrue(s', s'.ops[d]) {
      if d != c {
        OpStays(s, s', s'.ops[d]);
      }
    }
    assert forall i | 0 <= i < |s.db.publications| ::
      PublicationTrue(s, s.db.publications[i]) ==> PublicationTrue(s', s'.db.publications[i]);
  }

  lemma OpStays(s: State, s': State, op: Op)
    requires OpTrue(s, op) && SameBody(s, s') && RequestsGrow(s, s')
    ensures OpTrue(s', op)
  {
  }

  lemma SameRequestsKeep(s: State, s': State)
    requires Requests(s) && s'.db.requests == s.db.requests && s'.commits == s.commits
    ensures Requests(s')
  {
  }

  /** Moving requests out of `Pending` one way or another. */
  lemma StatusChangeKeeps(s: State, s': State)
    requires Requests(s) && s'.commits == s.commits && s'.db.requests.Keys == s.db.requests.Keys
    requires forall id | id in s.db.requests ::
               && s'.db.requests[id].(status := Pending) == s.db.requests[id].(status := Pending)
               && (s'.db.requests[id].status == s.db.requests[id].status ||
                   (s'.db.requests[id].status != Pending && (s'.db.requests[id].status == Approved ==> CommittedFor(s, id))))
    ensures Requests(s')
  {
  }
}
