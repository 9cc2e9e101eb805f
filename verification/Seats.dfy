/**
 * Seats of one organisation: members, invitations and the plan's limit. Inviting and accepting are
 * chains of reads and transactions that other clients and the clock can come between. Users are
 * identified by their normalised e-mail address.
 */
module Seats {
  import opened Base
  import opened Sizes

  const INVITATION_TTL := 14 * MS_PER_DAY

  datatype Member = ActiveMember | RevokedMember(at: int)

  datatype InvitationStatus = Pending | Accepted | Revoked

  datatype Invitation = Invitation(email: string, status: InvitationStatus, expiresAt: int)

  datatype Tables = Tables(members: map<string, Member>, invitations: map<string, Invitation>)

  /** An invitation that can still be accepted; it takes a seat. */
  predicate Live(i: Invitation, now: int) {
    i.status == Pending && i.expiresAt > now
  }

  function Active(t: Tables): set<string> {
    set e | e in t.members && t.members[e] == ActiveMember
  }

  function LiveIds(t: Tables, now: int): set<string> {
    set id | id in t.invitations && Live(t.invitations[id], now)
  }

  /** Seats taken, as `assertSeatAvailable` counts them. */
  function Taken(t: Tables, now: int): nat {
    |Active(t)| + |LiveIds(t, now)|
  }

  // ---- Transactions ----

  /** `create`: earlier pending invitations of the address are revoked. */
  function Invite(t: Tables, id: string, email: string, expiresAt: int): Tables {
    t.(invitations := (map i | i in t.invitations ::
                         if t.invitations[i].email == email && t.invitations[i].status == Pending
                         then t.invitations[i].(status := Revoked) else t.invitations[i])
                      [id := Invitation(email, Pending, expiresAt)])
  }

  function Revoke(t: Tables, id: string): (Tables, bool) {
    if id in t.invitations && t.invitations[id].status == Pending
    then (t.(invitations := t.invitations[id := t.invitations[id].(status := Revoked)]), true)
    else (t, false)
  }

  /** The transaction of `accept`; it does not look at the invitation again. */
  function Join(t: Tables, id: string): Tables
    requires id in t.invitations
  {
    t.(members := t.members[t.invitations[id].email := ActiveMember],
       invitations := t.invitations[id := t.invitations[id].(status := Accepted)])
  }

  function Offboard(t: Tables, email: string, at: int): Tables {
    if email in t.members then t.(members := t.members[email := RevokedMember(at)]) else t
  }

  /** `reinstate` makes no seat check. */
  function Reinstate(t: Tables, email: string): Tables {
    if email in t.members then t.(members := t.members[email := ActiveMember]) else t
  }

  function LiveEmails(t: Tables, now: int): set<string> {
    set id | id in t.invitations && Live(t.invitations[id], now) :: t.invitations[id].email
  }

  predicate OnePending(t: Tables) {
    forall a, b | a in t.invitations && b in t.invitations && a != b &&
      t.invitations[a].status == Pending && t.invitations[b].status == Pending :: t.invitations[a].email != t.invitations[b].email
  }

  /** The new invitation is pending, the address's pending ones are revoked, and all others stay. */
  predicate Replaced(before: map<string, Invitation>, after: map<string, Invitation>, id: string, email: string, expiresAt: int) {
    && after.Keys == before.Keys + {id} && after[id].email == email && after[id].status == Pending && after[id].expiresAt == expiresAt
    && forall i | i in before && i != id ::
         after[i] == if before[i].email == email && before[i].status == Pending then before[i].(status := Revoked) else before[i]
  }

  lemma InviteReplaces(t: Tables, id: string, email: string, expiresAt: int)
    ensures Replaced(t.invitations, Invite(t, id, email, expiresAt).invitations, id, email, expiresAt)
  {
  }

  // ---- What each transaction does to the seats ----

  lemma SameMembers(t: Tables, t': Tables)
    requires t'.members == t.members
    ensures Active(t') == Active(t)
  {
  }

  lemma InvitedOne(t: Tables, id: string, email: string, expiresAt: int)
    requires OnePending(t) && id !in t.invitations
    ensures OnePending(Invite(t, id, email, expiresAt))
  {
  }

  lemma OneReplaced(t: Tables, id: string, email: string, expiresAt: int, now: int, i: string)
    requires OnePending(t) && id !in t.invitations && i in t.invitations && Live(t.invitations[i], now) && t.invitations[i].email == email
    ensures LiveIds(Invite(t, id, email, expiresAt), now) == LiveIds(t, now) - {i} + if expiresAt > now then {id} else {}
  {
  }

  lemma NoneReplaced(t: Tables, id: string, email: string, expiresAt: int, now: int)
    requires id !in t.invitations && email !in LiveEmails(t, now)
    ensures LiveIds(Invite(t, id, email, expiresAt), now) == LiveIds(t, now) + if expiresAt > now then {id} else {}
  {
    forall i | i in LiveIds(t, now) ensures t.invitations[i].email != email {
      assert t.invitations[i].email in LiveEmails(t, now);
    }
  }

  /** The new invitation takes a seat; the address's live one, if any, gives one back. */
  lemma InviteTaken(t: Tables, id: string, email: string, expiresAt: int, now: int)
    requires OnePending(t) && id !in t.invitations
    ensures Taken(Invite(t, id, email, expiresAt), now) + One(email in LiveEmails(t, now)) == Taken(t, now) + One(expiresAt > now)
  {
    SameMembers(t, Invite(t, id, email, expiresAt));
    if email in LiveEmails(t, now) {
      var i :| i in t.invitations && Live(t.invitations[i], now) && t.invitations[i].email == email;
      OneReplaced(t, id, email, expiresAt, now, i);
      WithoutSize(LiveIds(t, now), i);
      WithSize(LiveIds(t, now) - {i}, id);
    } else {
      NoneReplaced(t, id, email, expiresAt, now);
      WithSize(LiveIds(t, now), id);
    }
  }

  /** An invitation that is no longer pending gives its seat back if it was live. */
  lemma EndedLive(t: Tables, t': Tables, id: string, now: int)
    requires id in t.invitations && id in t'.invitations && t'.invitations == t.invitations[id := t'.invitations[id]] && t'.invitations[id].status != Pending
    ensures LiveIds(t', now) == LiveIds(t, now) - {id}
    ensures OnePending(t) ==> OnePending(t')
  {
  }

  /** Revoking gives a seat back exactly when the invitation was live. */
  lemma RevokeTaken(t: Tables, id: string, now: int)
    ensures OnePending(t) ==> OnePending(Revoke(t, id).0)
    ensures Taken(Revoke(t, id).0, now) + One(id in LiveIds(t, now)) == Taken(t, now)
  {
    if Revoke(t, id).1 {
      EndedLive(t, Revoke(t, id).0, id, now);
      SameMembers(t, Revoke(t, id).0);
      WithoutSize(LiveIds(t, now), id);
    }
  }

  /** Accepting a live invitation moves its seat to the new member; accepting one that has lapsed takes another. */
  lemma JoinTaken(t: Tables, id: string, now: int)
    requires id in t.invitations
    ensures OnePending(t) ==> OnePending(Join(t, id))
    ensures Taken(Join(t, id), now) + One(id in LiveIds(t, now)) == Taken(t, now) + One(t.invitations[id].email !in Active(t))
  {
    EndedLive(t, Join(t, id), id, now);
    Joined(t, id);
    WithSize(Active(t), t.invitations[id].email);
    WithoutSize(LiveIds(t, now), id);
  }

  lemma Joined(t: Tables, id: string)
    requires id in t.invitations
    ensures Active(Join(t, id)) == Active(t) + {t.invitations[id].email}
  {
  }

  /** A member who leaves gives a seat back. */
  lemma OffboardTaken(t: Tables, email: string, at: int, now: int)
    ensures Taken(Offboard(t, email, at), now) + One(email in Active(t)) == Taken(t, now)
  {
    var t' := Offboard(t, email, at);
    assert Active(t') == Active(t) - {email};
    assert LiveIds(t', now) == LiveIds(t, now);
    WithoutSize(Active(t), email);
  }

  /** Reinstating takes a seat unless the person has one. */
  lemma ReinstateTaken(t: Tables, email: string, now: int)
    requires email in t.members
    ensures Taken(Reinstate(t, email), now) == Taken(t, now) + One(email !in Active(t))
  {
    var t' := Reinstate(t, email);
    assert Active(t') == Active(t) + {email};
    assert LiveIds(t', now) == LiveIds(t, now);
    WithSize(Active(t), email);
  }

  class SeatStore {
    var members: map<string, Member>
    var invitations: map<string, Invitation>

    function View(): Tables
      reads this
    {
      Tables(members, invitations)
    }

    constructor (owner: string)
      ensures View() == Tables(map[owner := ActiveMember], map[])
    {
      members, invitations := map[owner := ActiveMember], map[];
    }

    method CreateInvitation(id: string, email: string, expiresAt: int)
      modifies this`invitations
      ensures View() == Invite(old(View()), id, email, expiresAt)
      ensures members == old(members) && Replaced(old(invitations), invitations, id, email, expiresAt)
      ensures old(OnePending(View()) && id !in invitations) ==>
        OnePending(View()) && forall now ::
          Taken(View(), now) + One(email in old(LiveEmails(View(), now))) == old(Taken(View(), now)) + One(expiresAt > now)
    {
      ghost var t := View();
      InviteReplaces(t, id, email, expiresAt);
      invitations := map i | i in invitations ::
        if invitations[i].email == email && invitations[i].status == Pending
        then invitations[i].(status := Revoked) else invitations[i];
      invitations := invitations[id := Invitation(email, Pending, expiresAt)];
      if OnePending(t) && id !in t.invitations {
        forall now {
          InviteTaken(t, id, email, expiresAt, now);
        }
      }
    }

    method RevokeInvitation(id: string) returns (ok: bool)
      modifies this`invitations
      ensures (View(), ok) == Revoke(old(View()), id)
      ensures ok <==> id in old(invitations) && old(invitations)[id].status == Pending
      ensures members == old(members) && invitations - {id} == old(invitations) - {id} && (!ok ==> invitations == old(invitations))
      ensures ok ==> id in invitations && invitations[id] == old(invitations)[id].(status := Revoked)
      ensures old(OnePending(View())) ==> OnePending(View())
      ensures forall now :: Taken(View(), now) + One(id in old(LiveIds(View(), now))) == old(Taken(View(), now))
    {
      forall now {
        RevokeTaken(View(), id, now);
      }
      ok := id in invitations && invitations[id].status == Pending;
      if ok {
        invitations := invitations[id := invitations[id].(status := Revoked)];
      }
    }

    method AcceptInvitation(id: string)
      requires id in invitations
      modifies this
      ensures View() == Join(old(View()), id)
      ensures invitations - {id} == old(invitations) - {id} && id in invitations && invitations[id].status == Accepted
      ensures var email := old(invitations)[id].email;
              email in members && members[email] == ActiveMember && members - {email} == old(members) - {email}
      ensures old(OnePending(View())) ==> OnePending(View())
      ensures forall now :: Taken(View(), now) + One(id in old(LiveIds(View(), now))) ==
                            old(Taken(View(), now)) + One(old(invitations)[id].email !in old(Active(View())))
    {
      forall now {
        JoinTaken(View(), id, now);
      }
      members := members[invitations[id].email := ActiveMember];
      invitations := invitations[id := invitations[id].(status := Accepted)];
    }

    method OffboardMember(email: string, at: int)
      modifies this`members
      ensures View() == Offboard(old(View()), email, at)
      ensures members.Keys == old(members).Keys && members - {email} == old(members) - {email}
      ensures email in members ==> members[email] == RevokedMember(at)
      ensures forall now :: Taken(View(), now) + One(email in old(Active(View()))) == old(Taken(View(), now))
    {
      forall now {
        OffboardTaken(View(), email, at, now);
      }
      if email in members {
        members := members[email := RevokedMember(at)];
      }
    }

    method ReinstateMember(email: string)
      modifies this`members
      ensures View() == Reinstate(old(View()), email)
      ensures members.Keys == old(members).Keys && members - {email} == old(members) - {email}
      ensures email in members ==> members[email] == ActiveMember
      ensures email in old(members) ==>
        forall now :: Taken(View(), now) == old(Taken(View(), now)) + One(email !in old(Active(View())))
    {
      if email in members {
        forall now {
          ReinstateTaken(View(), email, now);
        }
        members := members[email := ActiveMember];
      }
    }
  }

  // ---- Clients ----

  /** `used`: the members counted before the pending invitations are. */
  datatype Op =
    | CountingInvite(email: string, used: nat)
    | Cleared(email: string)
    | Inserting(email: string, expiresAt: int)
    | Accepting(id: string)
    | CountingAccept(id: string, used: nat)
    | Joining(id: string)

  datatype State = State(db: Tables, limit: int, clock: int, ops: map<nat, Op>)

  datatype Step =
    | Tick(time: int)
    | LoadInvite(email: string)
    | LoadAccept(id: string, user: string)
    | RevokeIt(id: string)
    | OffboardIt(email: string)
    | Go
    | Insert(id: string)
    | Abandon

  function Start(owner: string, limit: int, clock: int): State {
    State(Tables(map[owner := ActiveMember], map[]), limit, clock, map[])
  }

  function SetOp(s: State, c: nat, op: Op): State {
    s.(ops := s.ops[c := op])
  }

  function Drop(s: State, c: nat): State {
    s.(ops := s.ops - {c})
  }

  function StepBegin(s: State, c: nat, step: Step): State {
    match step
    case Tick(time) => if s.clock <= time then s.(clock := time) else s
    case LoadInvite(email) => SetOp(s, c, if s.limit < 0 then Cleared(email) else CountingInvite(email, |Active(s.db)|))
    case LoadAccept(id, user) =>
      if id in s.db.invitations && Live(s.db.invitations[id], s.clock) && s.db.invitations[id].email == user
      then SetOp(s, c, Accepting(id)) else s
    case RevokeIt(id) => s.(db := Revoke(s.db, id).0)
    case OffboardIt(email) => s.(db := Offboard(s.db, email, s.clock))
    case _ => s
  }

  /** `assertSeatAvailable` counts the pending invitations and compares. */
  predicate SeatAvailable(s: State, used: nat, extra: nat) {
    s.limit < 0 || used + |LiveIds(s.db, s.clock)| + extra <= s.limit
  }

  function StepGo(s: State, c: nat, op: Op): State {
    match op
    case CountingInvite(email, used) => if SeatAvailable(s, used, 1) then SetOp(s, c, Cleared(email)) else Drop(s, c)
    case Cleared(email) => if email in Active(s.db) then Drop(s, c) else SetOp(s, c, Inserting(email, s.clock + INVITATION_TTL))
    case Accepting(id) => SetOp(s, c, CountingAccept(id, |Active(s.db)|))
    case CountingAccept(id, used) => if SeatAvailable(s, used, 0) then SetOp(s, c, Joining(id)) else Drop(s, c)
    case Joining(id) => if id in s.db.invitations then Drop(s.(db := Join(s.db, id)), c) else Drop(s, c)
    case _ => s
  }

  function StepOn(s: State, c: nat, op: Op, step: Step): State {
    if step.Abandon? then Drop(s, c)
    else if step.Go? then StepGo(s, c, op)
    else if step.Insert? && op.Inserting? then
      if step.id in s.db.invitations then s else Drop(s.(db := Invite(s.db, step.id, op.email, op.expiresAt)), c)
    else s
  }

  function Next(s: State, c: nat, step: Step): State {
    if c in s.ops then StepOn(s, c, s.ops[c], step) else StepBegin(s, c, step)
  }

  function Run(s: State, steps: seq<(nat, Step)>): State {
    if steps == [] then s
    else
      var n := |steps| - 1;
      Next(Run(s, steps[..n]), steps[n].0, steps[n].1)
  }

  // ---- Seats promised ----

  predicate Accepts(op: Op) {
    op.Accepting? || op.CountingAccept? || op.Joining?
  }

  predicate AcceptsKnown(s: State) {
    forall c | c in s.ops && Accepts(s.ops[c]) :: s.ops[c].id in s.db.invitations
  }

  /** Client `c` is accepting an invitation that has meanwhile been revoked, replaced or accepted, or has expired. */
  predicate Lapsed(s: State, c: nat) {
    c in s.ops && Accepts(s.ops[c]) && s.ops[c].id in s.db.invitations && !Live(s.db.invitations[s.ops[c].id], s.clock)
  }

  /** Addresses that may still join on a lapsed invitation. */
  function Claimed(s: State): set<string> {
    set c | c in s.ops && Lapsed(s, c) :: s.db.invitations[s.ops[c].id].email
  }

  /** Clients that have passed the seat check of `create` and not yet inserted. */
  function Promised(s: State): set<nat> {
    set c | c in s.ops && (s.ops[c].Cleared? || s.ops[c].Inserting?)
  }

  /** Seats taken, and seats that calls under way may still take. */
  function Weight(s: State): nat {
    |Active(s.db) + Claimed(s)| + |LiveEmails(s.db, s.clock)| + |Promised(s)|
  }

  /** Calls under way that may still take a seat nobody counts yet. */
  function Outstanding(s: State): nat {
    |Promised(s)| + |Claimed(s) - Active(s.db)|
  }

  /** No check is between its two counts with a count of members that is too low. */
  predicate CountsFresh(s: State) {
    forall c | c in s.ops && s.ops[c].CountingInvite? :: s.ops[c].used >= |Active(s.db)|
  }

  predicate Inv(s: State) {
    OnePending(s.db) && AcceptsKnown(s)
  }
}
