/** How far the seats of an organisation can be overdrawn, over every interleaving. */
module SeatSafety {
  import opened Seats
  import opened Sizes

  // ---- One live invitation per address ----

  function EmailsOf(t: Tables, ids: set<string>): set<string> {
    set id | id in ids && id in t.invitations :: t.invitations[id].email
  }

  lemma {:induction false} EmailsCount(t: Tables, ids: set<string>)
    requires ids <= t.invitations.Keys
    requires forall a, b | a in ids && b in ids && a != b :: t.invitations[a].email != t.invitations[b].email
    ensures |EmailsOf(t, ids)| == |ids|
    decreases ids
  {
    if ids != {} {
      var id :| id in ids;
      var e := t.invitations[id].email;
      EmailsCount(t, ids - {id});
      WithoutSize(ids, id);
      assert EmailsOf(t, ids) == EmailsOf(t, ids - {id}) + {e};
      assert e !in EmailsOf(t, ids - {id});
    }
  }

  lemma LiveCount(t: Tables, now: int)
    requires OnePending(t)
    ensures |LiveEmails(t, now)| == |LiveIds(t, now)|
  {
    EmailsCount(t, LiveIds(t, now));
    assert LiveEmails(t, now) == EmailsOf(t, LiveIds(t, now));
  }

  // ---- Steps that take no new seat ----

  lemma QuietWeight(s: State, s': State)
    requires s'.db.members == s.db.members && s'.db.invitations == s.db.invitations && s'.clock == s.clock
    requires Claimed(s') <= Claimed(s) && Promised(s') <= Promised(s)
    ensures Weight(s') <= Weight(s)
  {
    SubsetSize(Active(s'.db) + Claimed(s'), Active(s.db) + Claimed(s));
    SubsetSize(Promised(s'), Promised(s));
  }

  /** Invitations end or are left as they are, and time passes. */
  predicate Fades(s: State, s': State) {
    && s'.ops == s.ops && s'.db.members == s.db.members && s.clock <= s'.clock && s'.db.invitations.Keys == s.db.invitations.Keys
    && forall id | id in s.db.invitations ::
         && s'.db.invitations[id].email == s.db.invitations[id].email
         && s'.db.invitations[id].expiresAt == s.db.invitations[id].expiresAt
         && (s'.db.invitations[id].status == Pending ==> s.db.invitations[id].status == Pending)
  }

  /** Whoever is accepting an invitation that ends now may still take the seat the invitation gives up. */
  lemma FadesWeight(s: State, s': State)
    requires Inv(s) && Fades(s, s')
    ensures Inv(s') && Weight(s') <= Weight(s)
  {
    var live, live' := LiveEmails(s.db, s.clock), LiveEmails(s'.db, s'.clock);
    forall e | e in Claimed(s') ensures e in Claimed(s) + (live - live') {
      var c :| c in s'.ops && Lapsed(s', c) && s'.db.invitations[s'.ops[c].id].email == e;
      var id := s.ops[c].id;
      if Live(s.db.invitations[id], s.clock) {
        assert e in live;
        assert forall a | a in s'.db.invitations && Live(s'.db.invitations[a], s'.clock) :: a != id && s.db.invitations[a].status == Pending;
      } else {
        assert Lapsed(s, c);
      }
    }
    assert Active(s'.db) == Active(s.db);
    Trade(Active(s.db) + Claimed(s), Active(s'.db) + Claimed(s'), live, live');
  }

  lemma OffboardWeight(s: State, email: string)
    requires Inv(s)
    ensures var s' := s.(db := Offboard(s.db, email, s.clock)); Inv(s') && Weight(s') <= Weight(s)
  {
    var s' := s.(db := Offboard(s.db, email, s.clock));
    assert Claimed(s') == Claimed(s);
    SubsetSize(Active(s'.db) + Claimed(s'), Active(s.db) + Claimed(s));
  }

  // ---- Joining ----

  lemma JoinWeight(s: State, c: nat, id: string)
    requires Inv(s) && c in s.ops && s.ops[c] == Joining(id)
    ensures var s' := Drop(s.(db := Join(s.db, id)), c); Inv(s') && Weight(s') <= Weight(s)
  {
    var s' := Drop(s.(db := Join(s.db, id)), c);
    var e := s.db.invitations[id].email;
    var live, live' := LiveEmails(s.db, s.clock), LiveEmails(s'.db, s'.clock);
    JoinedEmails(s, s', id);
    forall x | x in Claimed(s') ensures x in Claimed(s) + {e} {
      var d :| d in s'.ops && Lapsed(s', d) && s'.db.invitations[s'.ops[d].id].email == x;
      assert s'.ops[d].id != id ==> Lapsed(s, d);
    }
    assert Active(s'.db) <= Active(s.db) + {e};
    assert Promised(s') == Promised(s);
    if !Live(s.db.invitations[id], s.clock) {
      assert Lapsed(s, c);
    }
    Trade(Active(s.db) + Claimed(s), Active(s'.db) + Claimed(s'), live, live');
  }

  lemma JoinedEmails(s: State, s': State, id: string)
    requires OnePending(s.db) && id in s.db.invitations && s'.clock == s.clock && s'.db == Join(s.db, id)
    ensures OnePending(s'.db)
    ensures var e := s.db.invitations[id].email;
            && LiveEmails(s'.db, s'.clock) <= LiveEmails(s.db, s.clock)
            && (Live(s.db.invitations[id], s.clock) ==>
                  e in LiveEmails(s.db, s.clock) && e !in LiveEmails(s'.db, s'.clock))
  {
  }

  // ---- Inviting ----

  lemma InsertWeight(s: State, c: nat, id: string)
    requires Inv(s) && c in s.ops && s.ops[c].Inserting? && id !in s.db.invitations
    ensures var s' := Drop(s.(db := Invite(s.db, id, s.ops[c].email, s.ops[c].expiresAt)), c);
            Inv(s') && Weight(s') <= Weight(s)
  {
    var e := s.ops[c].email;
    var s' := Drop(s.(db := Invite(s.db, id, e, s.ops[c].expiresAt)), c);
    InvitedOne(s.db, id, e, s.ops[c].expiresAt);
    var live, live' := LiveEmails(s.db, s.clock), LiveEmails(s'.db, s'.clock);
    InvitedClaims(s, s', c, id);
    WithoutSize(Promised(s), c);
    assert Promised(s') == Promised(s) - {c};
    if e in live {
      SubsetSize(live', live);
      UnionSize(Active(s'.db) + Claimed(s'), Active(s.db) + Claimed(s), {e});
    } else {
      SubsetSize(Active(s'.db) + Claimed(s'), Active(s.db) + Claimed(s));
      UnionSize(live', live, {e});
    }
  }

  /** Only someone accepting the address's replaced invitation can become a claim. */
  lemma InvitedClaims(s: State, s': State, c: nat, id: string)
    requires Inv(s) && c in s.ops && s.ops[c].Inserting? && id !in s.db.invitations
    requires s' == Drop(s.(db := Invite(s.db, id, s.ops[c].email, s.ops[c].expiresAt)), c)
    ensures var e := s.ops[c].email;
            && LiveEmails(s'.db, s'.clock) <= LiveEmails(s.db, s.clock) + {e}
            && Claimed(s') <= Claimed(s) + if e in LiveEmails(s.db, s.clock) then {e} else {}
  {
  }

  // ---- The seat check ----

  lemma ClearedWeight(s: State, c: nat)
    requires Inv(s) && s.limit >= 0 && c in s.ops && s.ops[c].CountingInvite? && s.ops[c].used >= |Active(s.db)|
    requires SeatAvailable(s, s.ops[c].used, 1)
    ensures var s' := SetOp(s, c, Cleared(s.ops[c].email));
            Inv(s') && Weight(s') <= s.limit - 1 + Outstanding(s')
  {
    var s' := SetOp(s, c, Cleared(s.ops[c].email));
    LiveCount(s.db, s.clock);
    WeightParts(s');
    assert Active(s'.db) == Active(s.db);
  }

  lemma WeightParts(s: State)
    ensures Weight(s) == |Active(s.db)| + |LiveEmails(s.db, s.clock)| + Outstanding(s)
  {
  }

  // ---- Any step, any run ----

  /** A step adds no weight, except that a passed check may fill what the limit leaves. */
  lemma NextWeight(s: State, c: nat, step: Step)
    requires Inv(s) && s.limit >= 0 && CountsFresh(s)
    ensures var s' := Next(s, c, step);
            && Inv(s') && s'.limit == s.limit
            && (Weight(s') <= Weight(s) || Weight(s') <= s.limit - 1 + Outstanding(s'))
  {
    var s' := Next(s, c, step);
    if c !in s.ops {
      BeginWeight(s, c, step);
    } else if step.Go? && s.ops[c].CountingInvite? && SeatAvailable(s, s.ops[c].used, 1) {
      ClearedWeight(s, c);
    } else if step.Go? && s.ops[c].Joining? {
      JoinWeight(s, c, s.ops[c].id);
    } else if step.Insert? && s.ops[c].Inserting? && step.id !in s.db.invitations {
      InsertWeight(s, c, step.id);
    } else {
      OnWeight(s, c, s.ops[c], step);
    }
  }

  lemma BeginWeight(s: State, c: nat, step: Step)
    requires Inv(s) && c !in s.ops && s.limit >= 0
    ensures Inv(StepBegin(s, c, step)) && Weight(StepBegin(s, c, step)) <= Weight(s)
  {
    var s' := StepBegin(s, c, step);
    if step.Tick? || step.RevokeIt? {
      FadesWeight(s, s');
    } else if step.OffboardIt? {
      OffboardWeight(s, step.email);
    } else {
      LoadWeight(s, c, step);
    }
  }

  lemma LoadWeight(s: State, c: nat, step: Step)
    requires Inv(s) && c !in s.ops && s.limit >= 0 && !step.Tick? && !step.RevokeIt? && !step.OffboardIt?
    ensures Inv(StepBegin(s, c, step)) && Weight(StepBegin(s, c, step)) <= Weight(s)
  {
    if step.LoadAccept? {
      LoadAcceptWeight(s, c, step.id, step.user);
    } else if step.LoadInvite? {
      var s' := SetOp(s, c, CountingInvite(step.email, |Active(s.db)|));
      SameClaims(s, s', c);
      QuietWeight(s, s');
    }
  }

  lemma LoadAcceptWeight(s: State, c: nat, id: string, user: string)
    requires Inv(s) && c !in s.ops
    ensures var s' := StepBegin(s, c, LoadAccept(id, user)); Inv(s') && Weight(s') <= Weight(s)
  {
    var s' := StepBegin(s, c, LoadAccept(id, user));
    if s' != s {
      SameClaims(s, s', c);
      QuietWeight(s, s');
    }
  }

  lemma SameClaims(s: State, s': State, c: nat)
    requires s' == s.(ops := s'.ops) && (forall d | d in s'.ops && d != c :: d in s.ops && s'.ops[d] == s.ops[d])
    requires c in s'.ops && Accepts(s'.ops[c]) && Lapsed(s', c) ==> Lapsed(s, c) && s.ops[c].id == s'.ops[c].id
    ensures Claimed(s') <= Claimed(s)
  {
  }

  lemma OnWeight(s: State, c: nat, op: Op, step: Step)
    requires Inv(s) && c in s.ops && op == s.ops[c] && s.limit >= 0
    requires !(step.Go? && op.CountingInvite? && SeatAvailable(s, op.used, 1)) && !(step.Go? && op.Joining?)
    requires !(step.Insert? && op.Inserting? && step.id !in s.db.invitations)
    ensures Inv(StepOn(s, c, op, step)) && Weight(StepOn(s, c, op, step)) <= Weight(s)
  {
    var s' := StepOn(s, c, op, step);
    SameClaims(s, s', c);
    QuietWeight(s, s');
  }

  predicate Orderly(s: State, k: nat) {
    CountsFresh(s) && Outstanding(s) <= k
  }

  lemma {:induction false} RunWeight(s: State, steps: seq<(nat, Step)>, k: nat)
    requires Inv(s) && s.limit >= 0 && Weight(s) <= s.limit + k - 1
    requires forall j | 0 <= j <= |steps| :: Orderly(Run(s, steps[..j]), k)
    ensures var s' := Run(s, steps); Inv(s') && s'.limit == s.limit && Weight(s') <= s.limit + k - 1
  {
    if steps != [] {
      var n := |steps| - 1;
      forall j | 0 <= j <= n ensures Orderly(Run(s, steps[..n][..j]), k) {
        assert steps[..n][..j] == steps[..j];
      }
      RunWeight(s, steps[..n], k);
      assert steps[..|steps|] == steps;
      assert Orderly(Run(s, steps[..n]), k) && Orderly(Run(s, steps[..|steps|]), k);
      NextWeight(Run(s, steps[..n]), steps[n].0, steps[n].1);
    }
  }

  /**
   * Whatever calls interleave: if never more than `k` of them may still take a seat nobody counts, and
   * nobody joins between the two counts of a check, members and live invitations together never
   * exceed the limit by more than k - 1.
   */
  lemma SeatsBounded(owner: string, limit: int, clock: int, steps: seq<(nat, Step)>, k: nat)
    requires limit >= 1 && k >= 1
    requires forall j | 0 <= j <= |steps| :: Orderly(Run(Start(owner, limit, clock), steps[..j]), k)
    ensures var s := Run(Start(owner, limit, clock), steps);
            && OnePending(s.db)
            && Taken(s.db, s.clock) <= limit + k - 1
  {
    var s0 := Start(owner, limit, clock);
    assert Active(s0.db) + Claimed(s0) == {owner};
    assert LiveEmails(s0.db, s0.clock) == {} && Promised(s0) == {};
    RunWeight(s0, steps, k);
    var s := Run(s0, steps);
    LiveCount(s.db, s.clock);
    SubsetSize(Active(s.db), Active(s.db) + Claimed(s));
  }

  // ---- Reinstating ----

  /** `reinstate` keeps the seats within the limit exactly when the person already has one or one is free. */
  lemma ReinstateExactly(t: Tables, email: string, now: int, limit: int)
    requires email in t.members && Taken(t, now) <= limit
    ensures Taken(Reinstate(t, email), now) <= limit <==> email in Active(t) || Taken(t, now) < limit
  {
    ReinstateTaken(t, email, now);
  }

  // ---- Overdrawing ----

  /** Two invitations whose checks overlap when one seat is left take two. */
  lemma TwoInvitesOverdraw(s: State, c: nat, d: nat, e: string, f: string, i: string, j: string)
    requires Inv(s) && c != d && c !in s.ops && d !in s.ops && e != f && i != j && s.limit >= 0
    requires i !in s.db.invitations && j !in s.db.invitations && e !in Active(s.db) && f !in Active(s.db)
    requires e !in LiveEmails(s.db, s.clock) && f !in LiveEmails(s.db, s.clock)
    requires Taken(s.db, s.clock) == s.limit - 1
    ensures var counted := Next(Next(Next(Next(s, c, LoadInvite(e)), d, LoadInvite(f)), c, Go), d, Go);
            var inserted := Next(Next(Next(Next(counted, c, Go), d, Go), c, Insert(i)), d, Insert(j));
            Taken(inserted.db, inserted.clock) == s.limit + 1
  {
    var loaded := Next(Next(s, c, LoadInvite(e)), d, LoadInvite(f));
    assert loaded == s.(ops := s.ops[c := CountingInvite(e, |Active(s.db)|)][d := CountingInvite(f, |Active(s.db)|)]);
    CheckPasses(loaded, c);
    var half := Next(loaded, c, Go);
    CheckPasses(half, d);
    var counted := Next(half, d, Go);
    BothInsert(counted, c, d, e, f, i, j);
  }

  lemma CheckPasses(s: State, c: nat)
    requires c in s.ops && s.ops[c].CountingInvite? && s.ops[c].used == |Active(s.db)| && Taken(s.db, s.clock) == s.limit - 1
    ensures Next(s, c, Go) == SetOp(s, c, Cleared(s.ops[c].email))
  {
  }

  lemma BothInsert(s: State, c: nat, d: nat, e: string, f: string, i: string, j: string)
    requires OnePending(s.db) && c != d && c in s.ops && d in s.ops && s.ops[c] == Cleared(e) && s.ops[d] == Cleared(f) && e != f && i != j
    requires i !in s.db.invitations && j !in s.db.invitations && e !in Active(s.db) && f !in Active(s.db)
    requires e !in LiveEmails(s.db, s.clock) && f !in LiveEmails(s.db, s.clock)
    ensures var inserted := Next(Next(Next(Next(s, c, Go), d, Go), c, Insert(i)), d, Insert(j));
            Taken(inserted.db, inserted.clock) == Taken(s.db, s.clock) + 2
  {
    var ready := Next(Next(s, c, Go), d, Go);
    assert ready == s.(ops := s.ops[c := Inserting(e, s.clock + INVITATION_TTL)][d := Inserting(f, s.clock + INVITATION_TTL)]);
    var first := Next(ready, c, Insert(i));
    assert first.db == Invite(s.db, i, e, s.clock + INVITATION_TTL) && first.ops[d] == ready.ops[d] && first.clock == s.clock;
    InvitedOne(s.db, i, e, s.clock + INVITATION_TTL);
    InviteTaken(s.db, i, e, s.clock + INVITATION_TTL, s.clock);
    NewEmail(s.db, s.clock, i, e, f);
    InviteTaken(first.db, j, f, s.clock + INVITATION_TTL, s.clock);
  }

  lemma NewEmail(t: Tables, now: int, id: string, email: string, other: string)
    requires id !in t.invitations && email !in LiveEmails(t, now) && other !in LiveEmails(t, now) && other != email
    ensures other !in LiveEmails(Invite(t, id, email, now + INVITATION_TTL), now)
  {
  }

  // ---- What calls achieve ----

  /** Revoking, offboarding and the passing of time take effect at once: a seat comes back exactly if one was taken. */
  lemma SeatsComeBack(s: State, c: nat, id: string, email: string, time: int)
    requires c !in s.ops
    ensures var revoked := Next(s, c, RevokeIt(id));
            Taken(revoked.db, s.clock) + One(id in LiveIds(s.db, s.clock)) == Taken(s.db, s.clock) && revoked.ops == s.ops
    ensures var offboarded := Next(s, c, OffboardIt(email));
            Taken(offboarded.db, s.clock) + One(email in Active(s.db)) == Taken(s.db, s.clock) && email !in Active(offboarded.db)
    ensures var later := Next(s, c, Tick(time));
            && later.clock == (if time > s.clock then time else s.clock) && later.db == s.db
            && LiveIds(later.db, later.clock) == set i | i in LiveIds(s.db, s.clock) && s.db.invitations[i].expiresAt > time
  {
    RevokeTaken(s.db, id, s.clock);
    OffboardTaken(s.db, email, s.clock, s.clock);
  }

  /** Somebody invited who accepts undisturbed becomes a member exactly if the seats taken are within the limit. */
  lemma AcceptExactly(s: State, c: nat, id: string) returns (accepting: State, counting: State, passed: State, after: State)
    requires c !in s.ops && id in s.db.invitations && Live(s.db.invitations[id], s.clock)
    ensures var email := s.db.invitations[id].email;
            && accepting == Next(s, c, LoadAccept(id, email)) && counting == Next(accepting, c, Go)
            && passed == Next(counting, c, Go) && after == Next(passed, c, Go) && c !in after.ops
            && if s.limit < 0 || Taken(s.db, s.clock) <= s.limit
               then after.db == Join(s.db, id) && email in Active(after.db) && id !in LiveIds(after.db, after.clock)
               else after.db == s.db
  {
    accepting := Next(s, c, LoadAccept(id, s.db.invitations[id].email));
    assert accepting == SetOp(s, c, Accepting(id));
    counting := Next(accepting, c, Go);
    assert counting == SetOp(s, c, CountingAccept(id, |Active(s.db)|));
    passed := Next(counting, c, Go);
    after := Next(passed, c, Go);
  }
}
