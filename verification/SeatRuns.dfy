/** Seats when calls come one at a time, and how far k overlapping calls overdraw them. */
module SeatRuns {
  import opened Seats
  import opened SeatSafety
  import opened Sizes
  import Fresh

  // ---- One call at a time ----

  /** No two calls of `create` or `accept` are under way; revoking, offboarding and the clock may come in between. */
  predicate OneCall(s: State) {
    forall c, d | c in s.ops && d in s.ops :: c == d
  }

  lemma OneCallOutstanding(s: State)
    requires OneCall(s)
    ensures Outstanding(s) <= 1
  {
    SmallSize(Promised(s));
    SmallSize(Claimed(s));
    SubsetSize(Claimed(s) - Active(s.db), Claimed(s));
    if Promised(s) != {} {
      var c :| c in Promised(s);
      assert Claimed(s) == {};
    }
  }

  /** Whoever accepts has counted enough seats to be let through. */
  predicate RoomToAccept(s: State) {
    forall c | c in s.ops && s.ops[c].CountingAccept? :: s.ops[c].used + |LiveIds(s.db, s.clock)| <= s.limit
  }

  lemma FreshKept(s: State, c: nat, step: Step)
    requires OneCall(s) && CountsFresh(s)
    ensures CountsFresh(Next(s, c, step))
  {
    if c !in s.ops && step.OffboardIt? {
      SubsetSize(Active(Next(s, c, step).db), Active(s.db));
    } else if c !in s.ops && step.RevokeIt? {
      SameMembers(s.db, Next(s, c, step).db);
    }
  }

  lemma RoomKept(s: State, c: nat, step: Step)
    requires OneCall(s) && RoomToAccept(s) && Taken(s.db, s.clock) <= s.limit
    ensures RoomToAccept(Next(s, c, step))
  {
    var s' := Next(s, c, step);
    if c !in s.ops && (step.Tick? || step.RevokeIt?) {
      SubsetSize(LiveIds(s'.db, s'.clock), LiveIds(s.db, s.clock));
    } else if c !in s.ops && step.OffboardIt? {
      assert LiveIds(s'.db, s'.clock) == LiveIds(s.db, s.clock);
    }
  }

  lemma {:induction false} OneCallRun(s: State, steps: seq<(nat, Step)>)
    requires Inv(s) && s.limit >= 0 && Weight(s) <= s.limit && CountsFresh(s) && RoomToAccept(s)
    requires forall j | 0 <= j <= |steps| :: OneCall(Run(s, steps[..j]))
    ensures var s' := Run(s, steps);
            Inv(s') && s'.limit == s.limit && Weight(s') <= s.limit && CountsFresh(s') && RoomToAccept(s')
  {
    if steps != [] {
      var n := |steps| - 1;
      forall j | 0 <= j <= n ensures OneCall(Run(s, steps[..n][..j])) {
        assert steps[..n][..j] == steps[..j];
      }
      OneCallRun(s, steps[..n]);
      assert steps[..|steps|] == steps;
      assert OneCall(Run(s, steps[..n])) && OneCall(Run(s, steps[..|steps|]));
      OneCallStep(Run(s, steps[..n]), steps[n].0, steps[n].1);
    }
  }

  lemma OneCallStep(s: State, c: nat, step: Step)
    requires Inv(s) && s.limit >= 0 && Weight(s) <= s.limit && CountsFresh(s) && RoomToAccept(s)
    requires OneCall(s) && OneCall(Next(s, c, step))
    ensures var s' := Next(s, c, step);
            Inv(s') && s'.limit == s.limit && Weight(s') <= s.limit && CountsFresh(s') && RoomToAccept(s')
  {
    NextWeight(s, c, step);
    OneCallOutstanding(Next(s, c, step));
    FreshKept(s, c, step);
    TakenWithinWeight(s);
    RoomKept(s, c, step);
  }

  lemma TakenWithinWeight(s: State)
    requires Inv(s)
    ensures Taken(s.db, s.clock) <= Weight(s)
  {
    LiveCount(s.db, s.clock);
    SubsetSize(Active(s.db), Active(s.db) + Claimed(s));
  }

  lemma StartWeight(owner: string, limit: int, clock: int)
    ensures Inv(Start(owner, limit, clock)) && Weight(Start(owner, limit, clock)) == 1
  {
    var s0 := Start(owner, limit, clock);
    assert Active(s0.db) + Claimed(s0) == {owner};
    assert LiveEmails(s0.db, s0.clock) == {} && Promised(s0) == {};
  }

  /**
   * If calls come one at a time, members and live invitations never exceed the limit, whatever is
   * revoked or offboarded or expires meanwhile.
   */
  lemma OneAtATimeWithinLimit(owner: string, limit: int, clock: int, steps: seq<(nat, Step)>)
    requires limit >= 1
    requires forall j | 0 <= j <= |steps| :: OneCall(Run(Start(owner, limit, clock), steps[..j]))
    ensures var s := Run(Start(owner, limit, clock), steps); Taken(s.db, s.clock) <= limit
  {
    StartWeight(owner, limit, clock);
    OneCallRun(Start(owner, limit, clock), steps);
    TakenWithinWeight(Run(Start(owner, limit, clock), steps));
  }

  /** Then nobody who accepts is refused for lack of a seat. */
  lemma AcceptNeverRefused(owner: string, limit: int, clock: int, steps: seq<(nat, Step)>, c: nat)
    requires limit >= 1
    requires forall j | 0 <= j <= |steps| :: OneCall(Run(Start(owner, limit, clock), steps[..j]))
    requires var s := Run(Start(owner, limit, clock), steps); c in s.ops && s.ops[c].CountingAccept?
    ensures var s := Run(Start(owner, limit, clock), steps);
            var s' := Next(s, c, Go);
            c in s'.ops && s'.ops[c] == Joining(s.ops[c].id)
  {
    StartWeight(owner, limit, clock);
    OneCallRun(Start(owner, limit, clock), steps);
    RoomLetsIn(Run(Start(owner, limit, clock), steps), c);
  }

  lemma RoomLetsIn(s: State, c: nat)
    requires RoomToAccept(s) && c in s.ops && s.ops[c].CountingAccept?
    ensures c in Next(s, c, Go).ops && Next(s, c, Go).ops[c] == Joining(s.ops[c].id)
  {
  }

  // ---- k calls overlapping ----

  function Email(owner: string, i: nat): string {
    owner + Fresh.Name(i + 1)
  }

  lemma EmailsDiffer(owner: string, i: nat, j: nat)
    ensures Email(owner, i) != owner && (i != j ==> Email(owner, i) != Email(owner, j))
  {
    assert |Email(owner, i)| == |owner| + i + 1 && |Email(owner, j)| == |owner| + j + 1;
  }

  /** `n` invitations, each under its address. */
  function Invited(owner: string, clock: int, n: nat): map<string, Invitation> {
    if n == 0 then map[]
    else Invited(owner, clock, n - 1)[Email(owner, n - 1) := Invitation(Email(owner, n - 1), Pending, clock + INVITATION_TTL)]
  }

  lemma {:induction false} InvitedKeys(owner: string, clock: int, n: nat, id: string)
    requires id in Invited(owner, clock, n)
    ensures exists i: nat | i < n :: id == Email(owner, i)
    ensures Invited(owner, clock, n)[id] == Invitation(id, Pending, clock + INVITATION_TTL)
  {
    if id != Email(owner, n - 1) {
      InvitedKeys(owner, clock, n - 1, id);
    }
  }

  lemma {:induction false} NotInvited(owner: string, clock: int, n: nat, i: nat)
    requires n <= i
    ensures Email(owner, i) !in Invited(owner, clock, n)
  {
    if n > 0 {
      NotInvited(owner, clock, n - 1, i);
      EmailsDiffer(owner, i, n - 1);
    }
  }

  lemma InviteNext(owner: string, clock: int, n: nat)
    ensures var members := map[owner := ActiveMember];
            Invite(Tables(members, Invited(owner, clock, n)), Email(owner, n), Email(owner, n), clock + INVITATION_TTL) ==
            Tables(members, Invited(owner, clock, n + 1))
  {
    var before := Invited(owner, clock, n);
    NotInvited(owner, clock, n, n);
    forall id | id in before ensures before[id].email != Email(owner, n) {
      InvitedKeys(owner, clock, n, id);
    }
  }

  lemma {:induction false} InvitedLive(owner: string, clock: int, n: nat)
    ensures var t := Tables(map[owner := ActiveMember], Invited(owner, clock, n));
            |Active(t)| == 1 && |LiveIds(t, clock)| == n
  {
    var t := Tables(map[owner := ActiveMember], Invited(owner, clock, n));
    assert Active(t) == {owner};
    assert LiveIds(t, clock) == Invited(owner, clock, n).Keys by {
      forall id | id in Invited(owner, clock, n) ensures Live(t.invitations[id], clock) {
        InvitedKeys(owner, clock, n, id);
      }
    }
    InvitedSize(owner, clock, n);
  }

  lemma {:induction false} InvitedSize(owner: string, clock: int, n: nat)
    ensures |Invited(owner, clock, n).Keys| == n
  {
    if n > 0 {
      InvitedSize(owner, clock, n - 1);
      NotInvited(owner, clock, n - 1, n - 1);
      NewKeySize(Invited(owner, clock, n - 1), Email(owner, n - 1), Invitation(Email(owner, n - 1), Pending, clock + INVITATION_TTL));
    }
  }

  function ClearedFor(owner: string, m: nat, c: nat): Op {
    Cleared(Email(owner, m + c))
  }

  /** Clients from `lo` to `hi` have passed the check for the invitations after the first `m`. */
  function ClearedOps(owner: string, m: nat, lo: nat, hi: nat): map<nat, Op> {
    map c: nat | lo <= c < hi :: ClearedFor(owner, m, c)
  }

  function Stage(owner: string, limit: int, clock: int, n: nat, ops: map<nat, Op>): State {
    State(Tables(map[owner := ActiveMember], Invited(owner, clock, n)), limit, clock, ops)
  }

  // The run: m invitations one after the other, then k whose checks all come before their inserts.

  function Check(c: nat, email: string): seq<(nat, Step)> {
    [(c, LoadInvite(email)), (c, Go)]
  }

  function Land(c: nat, email: string): seq<(nat, Step)> {
    [(c, Go), (c, Insert(email))]
  }

  function Serial(owner: string, m: nat): seq<(nat, Step)> {
    if m == 0 then [] else Serial(owner, m - 1) + Check(0, Email(owner, m - 1)) + Land(0, Email(owner, m - 1))
  }

  function Checks(owner: string, m: nat, k: nat): seq<(nat, Step)> {
    if k == 0 then [] else Checks(owner, m, k - 1) + Check(k - 1, Email(owner, m + k - 1))
  }

  function Inserts(owner: string, m: nat, k: nat): seq<(nat, Step)> {
    if k == 0 then [] else Inserts(owner, m, k - 1) + Land(k - 1, Email(owner, m + k - 1))
  }

  lemma {:induction false} RunAppend(s: State, a: seq<(nat, Step)>, b: seq<(nat, Step)>)
    ensures Run(s, a + b) == Run(Run(s, a), b)
    decreases |b|
  {
    if b == [] {
      assert a + b == a;
    } else {
      var n := |b| - 1;
      assert (a + b)[..|a| + n] == a + b[..n] && (a + b)[|a| + n] == b[n];
      RunAppend(s, a, b[..n]);
    }
  }

  lemma RunThen(s: State, a: seq<(nat, Step)>, b: seq<(nat, Step)>, all: seq<(nat, Step)>, between: State, end: State)
    requires all == a + b && Run(s, a) == between && Run(between, b) == end
    ensures Run(s, all) == end
  {
    RunAppend(s, a, b);
  }

  lemma RunPair(s: State, c: nat, first: Step, second: Step)
    ensures Run(s, [(c, first), (c, second)]) == Next(Next(s, c, first), c, second)
  {
    var both: seq<(nat, Step)> := [(c, first), (c, second)];
    assert both[..1] == [(c, first)] && |both[..1][..0]| == 0;
    assert Run(s, both[..1]) == Next(s, c, first);
  }

  lemma CheckPair(owner: string, limit: int, clock: int, n: nat, ops: map<nat, Op>, c: nat, email: string)
    requires c !in ops && 0 <= n + 2 <= limit
    ensures Run(Stage(owner, limit, clock, n, ops), Check(c, email)) == Stage(owner, limit, clock, n, ops[c := Cleared(email)])
  {
    var s := Stage(owner, limit, clock, n, ops);
    InvitedLive(owner, clock, n);
    RunPair(s, c, LoadInvite(email), Go);
    var counting := Next(s, c, LoadInvite(email));
    assert counting == SetOp(s, c, CountingInvite(email, 1));
    assert Next(counting, c, Go) == SetOp(counting, c, Cleared(email));
  }

  lemma InsertPair(owner: string, limit: int, clock: int, n: nat, ops: map<nat, Op>, c: nat)
    requires c in ops && ops[c] == Cleared(Email(owner, n))
    ensures Run(Stage(owner, limit, clock, n, ops), Land(c, Email(owner, n))) == Stage(owner, limit, clock, n + 1, ops - {c})
  {
    var s := Stage(owner, limit, clock, n, ops);
    var email := Email(owner, n);
    RunPair(s, c, Go, Insert(email));
    EmailsDiffer(owner, n, n);
    NotInvited(owner, clock, n, n);
    InviteNext(owner, clock, n);
    var inserting := Next(s, c, Go);
    assert inserting == SetOp(s, c, Inserting(email, clock + INVITATION_TTL));
    assert inserting.ops - {c} == ops - {c};
  }

  lemma OneInvitation(owner: string, limit: int, clock: int, n: nat)
    requires n + 2 <= limit
    ensures Run(Stage(owner, limit, clock, n, map[]), Check(0, Email(owner, n)) + Land(0, Email(owner, n))) ==
            Stage(owner, limit, clock, n + 1, map[])
  {
    var ops: map<nat, Op> := map[0 := Cleared(Email(owner, n))];
    CheckPair(owner, limit, clock, n, map[], 0, Email(owner, n));
    InsertPair(owner, limit, clock, n, ops, 0);
    assert ops - {0} == map[];
    RunThen(Stage(owner, limit, clock, n, map[]), Check(0, Email(owner, n)), Land(0, Email(owner, n)),
            Check(0, Email(owner, n)) + Land(0, Email(owner, n)),
            Stage(owner, limit, clock, n, ops), Stage(owner, limit, clock, n + 1, map[]));
  }

  lemma SerialStep(owner: string, limit: int, clock: int, n: nat, m: nat)
    requires m == n + 1 && m + 1 <= limit && Run(Start(owner, limit, clock), Serial(owner, n)) == Stage(owner, limit, clock, n, map[])
    ensures Run(Start(owner, limit, clock), Serial(owner, m)) == Stage(owner, limit, clock, m, map[])
  {
    OneInvitation(owner, limit, clock, n);
    SerialSplits(owner, m);
    RunThen(Start(owner, limit, clock), Serial(owner, n), Check(0, Email(owner, n)) + Land(0, Email(owner, n)), Serial(owner, m),
            Stage(owner, limit, clock, n, map[]), Stage(owner, limit, clock, m, map[]));
  }

  lemma {:induction false} SerialRun(owner: string, limit: int, clock: int, m: nat)
    requires m + 1 <= limit
    ensures Run(Start(owner, limit, clock), Serial(owner, m)) == Stage(owner, limit, clock, m, map[])
  {
    if m > 0 {
      SerialRun(owner, limit, clock, m - 1);
      SerialStep(owner, limit, clock, m - 1, m);
    }
  }

  lemma SerialSplits(owner: string, m: nat)
    requires m > 0
    ensures Serial(owner, m) == Serial(owner, m - 1) + (Check(0, Email(owner, m - 1)) + Land(0, Email(owner, m - 1)))
  {
  }

  lemma ClearedOpsStep(owner: string, m: nat, lo: nat, hi: nat)
    requires lo <= hi
    ensures ClearedOps(owner, m, lo, hi)[hi := Cleared(Email(owner, m + hi))] == ClearedOps(owner, m, lo, hi + 1)
    ensures lo < hi ==> ClearedOps(owner, m, lo, hi) - {lo} == ClearedOps(owner, m, lo + 1, hi)
  {
    assert ClearedFor(owner, m, hi) == Cleared(Email(owner, m + hi));
  }

  /** Clients 0 to `i` have been checked; client `i` is next. */
  lemma ChecksStep(owner: string, limit: int, clock: int, m: nat, i: nat, k: nat, email: string)
    requires m + 2 <= limit && k == i + 1 && email == Email(owner, m + i)
    ensures Checks(owner, m, k) == Checks(owner, m, i) + Check(i, email)
    ensures Run(Stage(owner, limit, clock, m, ClearedOps(owner, m, 0, i)), Check(i, email)) ==
            Stage(owner, limit, clock, m, ClearedOps(owner, m, 0, k))
  {
    CheckPair(owner, limit, clock, m, ClearedOps(owner, m, 0, i), i, email);
    ClearedOpsStep(owner, m, 0, i);
  }

  lemma {:induction false} ChecksRun(owner: string, limit: int, clock: int, m: nat, k: nat, s: State)
    requires m + 2 <= limit && s == Stage(owner, limit, clock, m, map[])
    ensures Run(s, Checks(owner, m, k)) == Stage(owner, limit, clock, m, ClearedOps(owner, m, 0, k))
  {
    if k == 0 {
      assert ClearedOps(owner, m, 0, 0) == map[];
    } else {
      var i, email := k - 1, Email(owner, m + (k - 1));
      ChecksRun(owner, limit, clock, m, i, s);
      ChecksStep(owner, limit, clock, m, i, k, email);
      RunThen(s, Checks(owner, m, i), Check(i, email), Checks(owner, m, k), Run(s, Checks(owner, m, i)),
              Stage(owner, limit, clock, m, ClearedOps(owner, m, 0, k)));
    }
  }

  /** `n` invitations are there; client `i` inserts the next. */
  lemma InsertsStep(owner: string, limit: int, clock: int, m: nat, i: nat, j: nat, n: nat, k: nat)
    requires j == i + 1 <= k && n == m + i
    ensures Inserts(owner, m, j) == Inserts(owner, m, i) + Land(i, Email(owner, n))
    ensures Run(Stage(owner, limit, clock, n, ClearedOps(owner, m, i, k)), Land(i, Email(owner, n))) ==
            Stage(owner, limit, clock, n + 1, ClearedOps(owner, m, j, k))
  {
    assert ClearedFor(owner, m, i) == Cleared(Email(owner, n));
    InsertPair(owner, limit, clock, n, ClearedOps(owner, m, i, k), i);
    ClearedOpsStep(owner, m, i, k);
  }

  lemma {:induction false} InsertsRun(owner: string, limit: int, clock: int, m: nat, j: nat, n: nat, k: nat, s: State)
    requires j <= k && n == m + j && s == Stage(owner, limit, clock, m, ClearedOps(owner, m, 0, k))
    ensures Run(s, Inserts(owner, m, j)) == Stage(owner, limit, clock, n, ClearedOps(owner, m, j, k))
    decreases j
  {
    if j > 0 {
      var i, before := j - 1, n - 1;
      InsertsRun(owner, limit, clock, m, i, before, k, s);
      InsertsStep(owner, limit, clock, m, i, j, before, k);
      RunThen(s, Inserts(owner, m, i), Land(i, Email(owner, before)), Inserts(owner, m, j), Run(s, Inserts(owner, m, i)),
              Stage(owner, limit, clock, n, ClearedOps(owner, m, j, k)));
    }
  }

  // ---- The run keeps the bound's conditions ----

  /** Clients below `k` inviting, and nothing else. */
  predicate Inviting(steps: seq<(nat, Step)>, k: nat) {
    forall i | 0 <= i < |steps| :: steps[i].0 < k && (steps[i].1.LoadInvite? || steps[i].1.Go? || steps[i].1.Insert?)
  }

  predicate OnlyInvites(s: State, k: nat) {
    forall c | c in s.ops :: c < k && (s.ops[c].Cleared? || s.ops[c].Inserting? ||
                                       (s.ops[c].CountingInvite? && s.ops[c].used == |Active(s.db)|))
  }

  lemma {:induction false} InvitingRun(owner: string, limit: int, clock: int, steps: seq<(nat, Step)>, k: nat)
    requires Inviting(steps, k)
    ensures OnlyInvites(Run(Start(owner, limit, clock), steps), k)
  {
    if steps != [] {
      var n := |steps| - 1;
      InvitingRun(owner, limit, clock, steps[..n], k);
      InvitingStep(Run(Start(owner, limit, clock), steps[..n]), steps[n].0, steps[n].1, k);
    }
  }

  lemma InvitingStep(s: State, c: nat, step: Step, k: nat)
    requires OnlyInvites(s, k) && c < k && (step.LoadInvite? || step.Go? || step.Insert?)
    ensures OnlyInvites(Next(s, c, step), k)
  {
    SameMembers(s.db, Next(s, c, step).db);
  }

  lemma {:induction false} Below(a: set<nat>, k: nat)
    requires forall c | c in a :: c < k
    ensures |a| <= k
  {
    if k == 0 {
      assert a == {};
    } else {
      Below(a - {k - 1}, k - 1);
      WithoutSize(a, k - 1);
    }
  }

  lemma OnlyInvitesOrderly(s: State, k: nat)
    requires OnlyInvites(s, k)
    ensures Orderly(s, k)
  {
    assert Claimed(s) == {};
    Below(Promised(s), k);
  }

  function OverdrawingRun(owner: string, limit: int, k: nat): seq<(nat, Step)>
    requires limit >= 2
  {
    Serial(owner, limit - 2) + Checks(owner, limit - 2, k) + Inserts(owner, limit - 2, k)
  }

  lemma {:induction false} SerialInviting(owner: string, m: nat, k: nat)
    requires k >= 1
    ensures Inviting(Serial(owner, m), k)
  {
    if m > 0 {
      SerialInviting(owner, m - 1, k);
    }
  }

  lemma {:induction false} OverlapInviting(owner: string, m: nat, j: nat, k: nat)
    requires j <= k
    ensures Inviting(Checks(owner, m, j), k) && Inviting(Inserts(owner, m, j), k)
  {
    if j > 0 {
      OverlapInviting(owner, m, j - 1, k);
    }
  }

  lemma OverdrawingOrderly(owner: string, limit: int, clock: int, k: nat, j: nat)
    requires limit >= 2 && k >= 1 && j <= |OverdrawingRun(owner, limit, k)|
    ensures Orderly(Run(Start(owner, limit, clock), OverdrawingRun(owner, limit, k)[..j]), k)
  {
    var steps := OverdrawingRun(owner, limit, k);
    SerialInviting(owner, limit - 2, k);
    OverlapInviting(owner, limit - 2, k, k);
    assert Inviting(steps, k);
    InvitingRun(owner, limit, clock, steps[..j], k);
    OnlyInvitesOrderly(Run(Start(owner, limit, clock), steps[..j]), k);
  }

  lemma OverdrawingEnds(owner: string, limit: int, clock: int, k: nat, m: nat, n: nat)
    requires limit == m + 2 && n == m + k
    ensures Run(Start(owner, limit, clock), OverdrawingRun(owner, limit, k)) == Stage(owner, limit, clock, n, ClearedOps(owner, m, k, k))
  {
    var first := Stage(owner, limit, clock, m, map[]);
    var second := Stage(owner, limit, clock, m, ClearedOps(owner, m, 0, k));
    SerialRun(owner, limit, clock, m);
    ChecksRun(owner, limit, clock, m, k, first);
    InsertsRun(owner, limit, clock, m, k, n, k, second);
    ThreeParts(Start(owner, limit, clock), Serial(owner, m), Checks(owner, m, k), Inserts(owner, m, k), first, second,
               Stage(owner, limit, clock, n, ClearedOps(owner, m, k, k)));
  }

  lemma ThreeParts(s: State, a: seq<(nat, Step)>, b: seq<(nat, Step)>, c: seq<(nat, Step)>, first: State, second: State, end: State)
    requires Run(s, a) == first && Run(first, b) == second && Run(second, c) == end
    ensures Run(s, a + b + c) == end
  {
    RunThen(s, a, b, a + b, first, second);
    RunThen(s, a + b, c, a + b + c, second, end);
  }

  lemma StageTaken(owner: string, limit: int, clock: int, n: nat, ops: map<nat, Op>)
    ensures Taken(Stage(owner, limit, clock, n, ops).db, clock) == n + 1
  {
    InvitedLive(owner, clock, n);
  }

  lemma OverdrawingTakes(owner: string, limit: int, clock: int, k: nat, s: State)
    requires limit >= 2 && s == Run(Start(owner, limit, clock), OverdrawingRun(owner, limit, k))
    ensures Taken(s.db, s.clock) == limit + k - 1
  {
    OverdrawingEnds(owner, limit, clock, k, limit - 2, limit - 2 + k);
    StageTaken(owner, limit, clock, limit - 2 + k, ClearedOps(owner, limit - 2, k, k));
  }

  /** The bound is met: for every limit with a seat to spare and every k, k overlapping invitations exceed it by k - 1. */
  lemma OverdrawnByAny(owner: string, limit: int, clock: int, k: nat)
    requires limit >= 2 && k >= 1
    ensures var steps := OverdrawingRun(owner, limit, k);
            var s := Run(Start(owner, limit, clock), steps);
            && (forall j | 0 <= j <= |steps| :: Orderly(Run(Start(owner, limit, clock), steps[..j]), k))
            && Taken(s.db, s.clock) == limit + k - 1
  {
    forall j | 0 <= j <= |OverdrawingRun(owner, limit, k)|
      ensures Orderly(Run(Start(owner, limit, clock), OverdrawingRun(owner, limit, k)[..j]), k)
    {
      OverdrawingOrderly(owner, limit, clock, k, j);
    }
    OverdrawingTakes(owner, limit, clock, k, Run(Start(owner, limit, clock), OverdrawingRun(owner, limit, k)));
  }
}
