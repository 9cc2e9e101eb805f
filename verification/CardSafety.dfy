/** What holds in every run of the card protocol. */
module CardSafety {
  import opened Base
  import opened CardSnapshots
  import opened CardTables
  import opened CardProtocol

  // ---- Every step keeps the invariant ----

  /** Only client `c` moved, and no table changed. */
  lemma QuietKeeps(s: State, s': State, c: nat)
    requires Inv(s) && s'.db == s.db && s'.versions == s.versions && s'.commits == s.commits && OthersStay(s, s', c)
    requires c in s'.ops ==> OpTrue(s, s'.ops[c])
    ensures Inv(s')
  {
    if c in s'.ops {
      OpStays(s, s', s'.ops[c]);
    }
    SameBodyKeeps(s, s', c);
    SameRequestsKeep(s, s');
  }

  lemma LoadKeeps(s: State, c: nat, input: UpdateInput, template: Option<Template>, request: Option<string>)
    requires Inv(s)
    requires request.Some? ==> request.value in s.db.requests && s.db.requests[request.value].payload == input
    ensures Inv(StepLoad(s, c, input, template, request))
  {
    QuietKeeps(s, StepLoad(s, c, input, template, request), c);
  }

  /** Unpublishing, deleting and offboarding change neither the body nor the requests. */
  lemma StatusKeeps(s: State, s': State, c: nat)
    requires Inv(s) && c !in s.ops && s' == s.(db := s'.db)
    requires s'.db.requests == s.db.requests && SameBody(s, s')
    requires s'.db.status == Published ==> s.db.status == Published && s'.db.deleted == s.db.deleted
    ensures Inv(s')
  {
    SameBodyKeeps(s, s', c);
    SameRequestsKeep(s, s');
  }

  lemma WithdrawKeeps(s: State, c: nat, id: string, user: string)
    requires Inv(s) && c !in s.ops
    ensures Inv(s.(db := WithdrawnBy(s.db, id, user).0))
  {
    var s' := s.(db := WithdrawnBy(s.db, id, user).0);
    SameBodyKeeps(s, s', c);
    StatusChangeKeeps(s, s');
  }

  lemma BeginKeeps(s: State, c: nat, step: Step)
    requires Inv(s) && c !in s.ops
    ensures Inv(StepBegin(s, c, step))
  {
    var s' := StepBegin(s, c, step);
    if step.LoadForSave? {
      LoadKeeps(s, c, step.input, step.template, None);
    } else if step.Withdraw? {
      WithdrawKeeps(s, c, step.id, step.user);
    } else if step.Unpublish? || step.Remove? || step.Offboard? {
      StatusKeeps(s, s', c);
    } else {
      QuietKeeps(s, s', c);
    }
  }

  lemma SubmitKeeps(s: State, c: nat, op: Op, id: string)
    requires Inv(s) && op.Submitting? && id !in s.db.requests
    ensures Inv(Drop(s.(db := Submitted(s.db, id, op.user, op.payload, op.baseRevision)), c))
  {
    var s' := Drop(s.(db := Submitted(s.db, id, op.user, op.payload, op.baseRevision)), c);
    SameBodyKeeps(s, s', c);
    SubmittedRequests(s, s', id, op.user);
  }

  lemma SubmittedRequests(s: State, s': State, id: string, user: string)
    requires Requests(s) && id !in s.db.requests && s'.commits == s.commits
    requires id in s'.db.requests && s'.db.requests[id].status == Pending && s'.db.requests[id].requestedBy == user
    requires s'.db.requests - {id} == WithdrawPending(s.db.requests, user)
    ensures Requests(s')
  {
    assert forall x :: CommittedFor(s, x) ==> CommittedFor(s', x);
    forall x | x in s'.db.requests && x != id
      ensures x in s.db.requests && s'.db.requests[x] == WithdrawPending(s.db.requests, user)[x]
    {
      assert x in s'.db.requests - {id};
    }
    forall x | x in s.db.requests
      ensures x in s'.db.requests && s'.db.requests[x] == WithdrawPending(s.db.requests, user)[x]
    {
      assert x in WithdrawPending(s.db.requests, user);
    }
  }

  lemma FinishKeeps(s: State, c: nat, id: string, status: RequestStatus)
    requires Inv(s) && OpTrue(s, Finishing(id, status))
    ensures Inv(Drop(s.(db := Finished(s.db, id, status)), c))
  {
    var s' := Drop(s.(db := Finished(s.db, id, status)), c);
    SameBodyKeeps(s, s', c);
    StatusChangeKeeps(s, s');
  }

  lemma PublishKeeps(s: State, c: nat, op: Op, urls: Media, user: string, now: int)
    requires Inv(s) && op.AllRead? && OpTrue(s, op)
    ensures Inv(StepCommitPublish(s, c, op, urls, user, now))
  {
    var s' := StepCommitPublish(s, c, op, urls, user, now);
    if s'.db == s.db {
      SameBodyKeeps(s, s', c);
      SameRequestsKeep(s, s');
    } else {
      // the revision did not move between the first read and the commit, so neither did the children
      assert op.design == s.db.body.design && op.contents == s.db.body.contents;
      SnapshotShows(s.db.slug, s.db.body, op.rows, urls);
      PublishedKeeps(s, s', c, s'.db.publications[|s.db.publications|]);
    }
  }

  lemma PublishedKeeps(s: State, s': State, c: nat, p: Publication)
    requires Inv(s) && PublicationTrue(s, p) && p.revision == s.db.revision && !s.db.deleted
    requires s'.db == s.db.(status := Published, publishedAt := s'.db.publishedAt, publications := s.db.publications + [p])
    requires s' == Drop(s.(db := s'.db), c)
    ensures Inv(s')
  {
    PublishedOps(s, s');
    PublishedList(s, s', p);
    SameRequestsKeep(s, s');
  }

  lemma PublishedOps(s: State, s': State)
    requires History(s) && Ops(s) && s'.versions == s.versions && s'.commits == s.commits
    requires s'.db.body == s.db.body && s'.db.revision == s.db.revision && s'.db.requests == s.db.requests
    requires forall d | d in s'.ops :: d in s.ops && s'.ops[d] == s.ops[d]
    ensures History(s') && Ops(s')
  {
    assert forall i | 0 <= i < |s.commits| :: CommitLinks(s, i) ==> CommitLinks(s', i);
    assert forall id :: CommittedFor(s, id) ==> CommittedFor(s', id);
    forall d | d in s'.ops ensures OpTrue(s', s'.ops[d]) {
      assert OpTrue(s, s.ops[d]);
    }
  }

  lemma PublishedList(s: State, s': State, p: Publication)
    requires Publications(s) && PublicationTrue(s, p) && p.revision == |s.versions| && !s.db.deleted
    requires s'.versions == s.versions && s'.db.slug == s.db.slug && !s'.db.deleted
    requires s'.db.publications == s.db.publications + [p]
    ensures Publications(s')
  {
    forall i | 0 <= i < |s'.db.publications|
      ensures PublicationTrue(s', s'.db.publications[i]) && s'.db.publications[i].revision <= p.revision
    {
      var q := s'.db.publications[i];
      assert q == if i < |s.db.publications| then s.db.publications[i] else p;
      assert PublicationTrue(s, q);
      TrueStays(s, s', q);
    }
    StillOrdered(s.db.publications, p, s'.db.publications);
  }

  lemma StillOrdered(list: seq<Publication>, p: Publication, longer: seq<Publication>)
    requires Ordered(list) && longer == list + [p] && forall i | 0 <= i < |longer| :: longer[i].revision <= p.revision
    ensures Ordered(longer)
  {
  }

  lemma TrueStays(s: State, s': State, p: Publication)
    requires PublicationTrue(s, p) && s'.versions == s.versions && s'.db.slug == s.db.slug
    ensures PublicationTrue(s', p) && p.revision <= |s.versions|
  {
  }

  /** `s'` is `s` after one more committed edit. */
  ghost predicate Extends(s: State, s': State, k: Commit) {
    && s'.db == s.db.(body := s'.db.body, revision := s.db.revision + 1)
    && s'.versions == s.versions + [s'.db.body] && s'.commits == s.commits + [k]
    && k.input.revision == s.db.revision && IdsFresh(s, k.input, k.ids)
    && Checked(s.db.body.design, k.input, k.template)
    && UpdatedBody(s.db.body, k.input, k.template, k.ids) == Some(s'.db.body)
    && (k.request.Some? ==> k.request.value in s.db.requests && s.db.requests[k.request.value].payload == k.input)
  }

  lemma ExtendsHistory(s: State, s': State, k: Commit)
    requires History(s) && Extends(s, s', k)
    ensures History(s')
  {
    forall i | 0 <= i < |s'.commits| ensures CommitLinks(s', i) {
      if i < |s.commits| {
        assert CommitLinks(s, i);
        assert s'.versions[i] == s.versions[i] && s'.versions[i + 1] == s.versions[i + 1];
      }
    }
  }

  lemma ExtendsCommitted(s: State, s': State, k: Commit)
    requires Extends(s, s', k)
    ensures forall id :: CommittedFor(s, id) ==> CommittedFor(s', id)
    ensures k.request.Some? ==> CommittedFor(s', k.request.value)
  {
    forall id | CommittedFor(s, id) ensures CommittedFor(s', id) {
      var i :| 0 <= i < |s.commits| && s.commits[i].request == Some(id);
      assert s'.commits[i].request == Some(id);
    }
    assert s'.commits[|s.commits|] == k;
  }

  lemma ExtendsOp(s: State, s': State, k: Commit, op: Op)
    requires History(s) && Extends(s, s', k) && OpTrue(s, op)
    ensures OpTrue(s', op)
  {
    ExtendsCommitted(s, s', k);
  }

  lemma ExtendsPublications(s: State, s': State, k: Commit)
    requires History(s) && Publications(s) && Extends(s, s', k)
    ensures Publications(s')
  {
    forall i | 0 <= i < |s'.db.publications| ensures PublicationTrue(s', s'.db.publications[i]) {
      assert PublicationTrue(s, s.db.publications[i]);
    }
  }

  lemma ExtendsRequests(s: State, s': State, k: Commit)
    requires Requests(s) && Extends(s, s', k)
    ensures Requests(s')
  {
    ExtendsCommitted(s, s', k);
  }

  lemma SaveKeeps(s: State, c: nat, op: Op, ids: seq<string>)
    requires Inv(s) && op.Saving? && OpTrue(s, op)
    ensures Inv(StepCommitSave(s, c, op, ids))
  {
    var s' := StepCommitSave(s, c, op, ids);
    if IdsFresh(s, op.input, ids) {
      if CommitUpdate(s.db, op.input, op.template, ids).1.Err? {
        SameBodyKeeps(s, s', c);
        SameRequestsKeep(s, s');
      } else {
        var k := Commit(op.input, op.template, ids, op.request);
        assert Extends(s, s', k);
        ExtendsHistory(s, s', k);
        ExtendsPublications(s, s', k);
        ExtendsRequests(s, s', k);
        ExtendsCommitted(s, s', k);
        forall d | d in s'.ops ensures OpTrue(s', s'.ops[d]) {
          if d != c {
            ExtendsOp(s, s', k, s.ops[d]);
          }
        }
      }
    }
  }

  /** Publishing's reads: what was read is true of the version it was read from. */
  lemma ReadKeeps(s: State, c: nat, op: Op, step: Step)
    requires Inv(s) && OpTrue(s, op) && c in s.ops && s.ops[c] == op
    requires (op.RowRead? && step.ReadContents?) || (op.ContentsRead? && step.ReadLinks?)
    ensures Inv(StepOn(s, c, op, step))
  {
    QuietKeeps(s, StepOn(s, c, op, step), c);
  }

  lemma HeldTrue(s: State, c: nat)
    requires Inv(s) && c in s.ops
    ensures OpTrue(s, s.ops[c])
  {
  }

  /** The steps of saving and publishing. */
  lemma EditorKeeps(s: State, c: nat, op: Op, step: Step)
    requires Inv(s) && c in s.ops && s.ops[c] == op && OpTrue(s, op)
    requires op.Saving? || op.RowRead? || op.ContentsRead? || op.AllRead?
    ensures Inv(StepOn(s, c, op, step))
  {
    if step.Abandon? {
      QuietKeeps(s, Drop(s, c), c);
    } else if op.Saving? && step.CommitSave? {
      SaveKeeps(s, c, op, step.ids);
    } else if op.AllRead? && step.CommitPublish? {
      PublishKeeps(s, c, op, step.urls, step.user, step.now);
    } else if (op.RowRead? && step.ReadContents?) || (op.ContentsRead? && step.ReadLinks?) {
      ReadKeeps(s, c, op, step);
    }
  }

  /** The steps of submitting and reviewing. */
  lemma ReviewerKeeps(s: State, c: nat, op: Op, step: Step)
    requires Inv(s) && c in s.ops && s.ops[c] == op && OpTrue(s, op)
    requires op.Submitting? || op.Approving? || op.Finishing?
    ensures Inv(StepOn(s, c, op, step))
  {
    if step.Abandon? {
      QuietKeeps(s, Drop(s, c), c);
    } else if op.Submitting? && step.CommitSubmit? {
      if step.id !in s.db.requests {
        SubmitKeeps(s, c, op, step.id);
      }
    } else if op.Approving? && step.LoadForApproval? {
      LoadKeeps(s, c, s.db.requests[op.id].payload, step.template, Some(op.id));
    } else if op.Finishing? && step.CommitFinish? {
      FinishKeeps(s, c, op.id, op.status);
    }
  }

  lemma OnKeeps(s: State, c: nat, step: Step)
    requires Inv(s) && c in s.ops
    ensures Inv(StepOn(s, c, s.ops[c], step))
  {
    var op := s.ops[c];
    HeldTrue(s, c);
    if op.Submitting? || op.Approving? || op.Finishing? {
      ReviewerKeeps(s, c, op, step);
    } else {
      EditorKeeps(s, c, op, step);
    }
  }

  lemma {:induction false} RunInv(s: State, steps: seq<(nat, Step)>)
    requires Inv(s)
    ensures Inv(Run(s, steps))
    decreases |steps|
  {
    if steps != [] {
      var n := |steps| - 1;
      RunInv(s, steps[..n]);
      var prior, c, step := Run(s, steps[..n]), steps[n].0, steps[n].1;
      if c in prior.ops {
        OnKeeps(prior, c, step);
      } else {
        BeginKeeps(prior, c, step);
      }
    }
  }

  // ---- The past is kept ----

  lemma StepExtends(s: State, c: nat, step: Step)
    ensures s.versions <= Next(s, c, step).versions && s.commits <= Next(s, c, step).commits
    ensures s.db.publications <= Next(s, c, step).db.publications && s.db.slug == Next(s, c, step).db.slug
  {
  }

  lemma {:induction false} RunExtends(s: State, steps: seq<(nat, Step)>, k: nat)
    requires k <= |steps|
    ensures var past, now := Run(s, steps[..k]), Run(s, steps);
            && past.versions <= now.versions && past.commits <= now.commits
            && past.db.publications <= now.db.publications && past.db.slug == now.db.slug
    decreases |steps| - k
  {
    if k == |steps| {
      assert steps[..k] == steps;
    } else {
      RunExtends(s, steps, k + 1);
      assert steps[..k + 1][..k] == steps[..k];
      StepExtends(Run(s, steps[..k]), steps[k].0, steps[k].1);
    }
  }

  /** `versions[r - 1]` really is the card as it stood at revision `r`, at whatever moment of the run that was. */
  lemma AsItStood(s: State, steps: seq<(nat, Step)>, k: nat)
    requires Inv(s) && k <= |steps|
    ensures var past, now := Run(s, steps[..k]), Run(s, steps);
            1 <= past.db.revision <= |now.versions| && now.versions[past.db.revision - 1] == past.db.body
  {
    RunInv(s, steps[..k]);
    RunExtends(s, steps, k);
  }

  // ---- Publishing ----

  /**
   * Every publication shows the card as it stood at the revision written beside it, and the
   * revisions never go down, whoever edited, unpublished or deleted meanwhile.
   */
  lemma PublicationsFaithful(s: State, steps: seq<(nat, Step)>)
    requires Inv(s)
    ensures var now := Run(s, steps);
            && (forall i | 0 <= i < |now.db.publications| ::
                  var p := now.db.publications[i];
                  && 1 <= p.revision <= now.db.revision == |now.versions|
                  && Shows(p.snapshot, now.db.slug, now.versions[p.revision - 1])
                  && Presentable(p.snapshot))
            && Ordered(now.db.publications)
  {
    RunInv(s, steps);
    var now := Run(s, steps);
    forall i | 0 <= i < |now.db.publications| ensures Presentable(now.db.publications[i].snapshot) {
      assert PublicationTrue(now, now.db.publications[i]);
      var p := now.db.publications[i];
      UnblockedIsPresentable(p.snapshot, now.db.slug, now.versions[p.revision - 1]);
    }
    RowsAreSound(now);
  }

  function LatestRevision(t: Tables): Option<int> {
    if t.publications == [] then None else Some(t.publications[|t.publications| - 1].revision)
  }

  function HasUnpublishedChanges(status: Status, revision: int, published: Option<int>): bool {
    status == Published && (published.None? || published.value != revision)
  }

  /** A published card that reports no unpublished changes shows its visitors exactly what its editor sees. */
  lemma NothingUnpublished(s: State, steps: seq<(nat, Step)>)
    requires Inv(s)
    requires Run(s, steps).db.status == Published
    ensures var t := Run(s, steps).db;
              && t.publications != [] && !t.deleted
              && (!HasUnpublishedChanges(t.status, t.revision, LatestRevision(t)) ==>
                    Shows(t.publications[|t.publications| - 1].snapshot, t.slug, t.body))
  {
    RunInv(s, steps);
    LatestShows(Run(s, steps));
  }

  lemma LatestShows(s: State)
    requires History(s) && Publications(s) && s.db.publications != []
    ensures var p := s.db.publications[|s.db.publications| - 1];
            p.revision == s.db.revision ==> Shows(p.snapshot, s.db.slug, s.db.body)
  {
    assert PublicationTrue(s, s.db.publications[|s.db.publications| - 1]);
  }

  lemma RowsAreSound(s: State)
    requires Inv(s)
    ensures Sound(s.db)
  {
    forall i | 0 <= i < |s.db.publications| ensures s.db.publications[i].revision <= s.db.revision {
      assert PublicationTrue(s, s.db.publications[i]);
    }
  }

  /** The page is up exactly while the card is published; it shows one committed version and never a hidden link. */
  lemma PublicPageShowsOneVersion(s: State, steps: seq<(nat, Step)>)
    requires Inv(s)
    ensures var now := Run(s, steps);
            && Sound(now.db) && (PublicPage(now.db).Some? <==> now.db.status == Published)
            && (PublicPage(now.db).Some? ==>
                  && Presentable(PublicPage(now.db).value)
                  && exists v | v in now.versions :: Shows(PublicPage(now.db).value, now.db.slug, v))
  {
    RunInv(s, steps);
    var now := Run(s, steps);
    PublicationsFaithful(s, steps);
    RowsAreSound(now);
    if now.db.publications != [] {
      var p := now.db.publications[|now.db.publications| - 1];
      assert PublicationTrue(now, p);
      assert Shows(p.snapshot, now.db.slug, now.versions[p.revision - 1]);
    }
  }

  // ---- No lost update ----

  /**
   * The revision is one more than the number of committed edits; the i-th edit named the i-th
   * version and made the next one from it. So no two edits share a base and none is overwritten unseen.
   */
  lemma NoLostUpdate(s: State, steps: seq<(nat, Step)>, i: nat, j: nat)
    requires Inv(s) && i < j < |Run(s, steps).commits|
    ensures var now := Run(s, steps);
            && now.db.revision == |now.commits| + 1 == |now.versions|
            && now.commits[i].input.revision == i + 1 < now.commits[j].input.revision
            && IdsMatch(now.commits[i].input, now.commits[i].ids)
            && UpdatedBody(now.versions[i], now.commits[i].input, now.commits[i].template, now.commits[i].ids) == Some(now.versions[i + 1])
  {
    RunInv(s, steps);
    assert CommitLinks(Run(s, steps), i) && CommitLinks(Run(s, steps), j);
  }

  /**
   * Each request is committed at most once, and then with its own payload on the revision that payload
   * names; that is the base the service noted exactly when the payload names the base.
   */
  lemma RequestCommittedOnce(s: State, steps: seq<(nat, Step)>, i: nat, j: nat, id: string)
    requires Inv(s)
    requires var now := Run(s, steps);
             i < |now.commits| && j < |now.commits| && now.commits[i].request == Some(id) == now.commits[j].request
    ensures var now := Run(s, steps);
            && i == j
            && id in now.db.requests && now.commits[i].input == now.db.requests[id].payload
            && now.db.requests[id].payload.revision == i + 1
            && (i + 1 == now.db.requests[id].baseRevision <==>
                now.db.requests[id].payload.revision == now.db.requests[id].baseRevision)
  {
    RunInv(s, steps);
    var now := Run(s, steps);
    assert CommitLinks(now, i) && CommitLinks(now, j);
  }

  /** An approved request has been committed, and a requester has at most one pending request. */
  lemma ApprovedWasCommitted(s: State, steps: seq<(nat, Step)>)
    requires Inv(s)
    ensures var now := Run(s, steps);
            && (forall id | id in now.db.requests && now.db.requests[id].status == Approved :: CommittedFor(now, id))
            && OnePending(now.db.requests)
  {
    RunInv(s, steps);
  }

  lemma StepSettled(s: State, c: nat, step: Step, id: string)
    requires Inv(s) && id in s.db.requests && s.db.requests[id].status != Pending
    ensures var s' := Next(s, c, step);
            id in s'.db.requests && s'.db.requests[id].status != Pending
  {
    if c in s.ops {
      HeldTrue(s, c);
    }
  }

  lemma {:induction false} NeverPendingAgain(s: State, steps: seq<(nat, Step)>, id: string)
    requires Inv(s) && id in s.db.requests && s.db.requests[id].status != Pending
    ensures id in Run(s, steps).db.requests && Run(s, steps).db.requests[id].status != Pending
    decreases |steps|
  {
    if steps != [] {
      var n := |steps| - 1;
      NeverPendingAgain(s, steps[..n], id);
      RunInv(s, steps[..n]);
      StepSettled(Run(s, steps[..n]), steps[n].0, steps[n].1, id);
    }
  }

  // ---- When a settled request stays unapplied ----

  /** No reviewer is between reading this request and committing it. */
  ghost predicate NotInFlight(s: State, id: string) {
    forall c | c in s.ops ::
      && (s.ops[c].Saving? ==> s.ops[c].request != Some(id))
      && (s.ops[c].Approving? ==> s.ops[c].id != id)
  }

  lemma StepStaysOut(s: State, c: nat, step: Step, id: string)
    requires id in s.db.requests && s.db.requests[id].status != Pending && NotInFlight(s, id)
    ensures var s' := Next(s, c, step);
            NotInFlight(s', id) && (CommittedFor(s', id) ==> CommittedFor(s, id))
  {
    var s' := Next(s, c, step);
    if c in s.ops && s.ops[c].Saving? && s'.commits != s.commits {
      assert s'.commits == s.commits + [s'.commits[|s.commits|]] && s'.commits[|s.commits|].request != Some(id);
    }
  }

  /** A request settled while no reviewer holds it is never applied afterwards. */
  lemma {:induction false} SettledStaysUnapplied(s: State, steps: seq<(nat, Step)>, id: string)
    requires Inv(s) && id in s.db.requests && s.db.requests[id].status != Pending && NotInFlight(s, id)
    ensures CommittedFor(Run(s, steps), id) ==> CommittedFor(s, id)
    ensures NotInFlight(Run(s, steps), id)
    decreases |steps|
  {
    if steps != [] {
      var n := |steps| - 1;
      SettledStaysUnapplied(s, steps[..n], id);
      NeverPendingAgain(s, steps[..n], id);
      StepStaysOut(Run(s, steps[..n]), steps[n].0, steps[n].1, id);
    }
  }
}
