/** The event report: one pass over an event's contacts feeds totals and three tables that must agree. */
module EventReport {
  import opened Base
  import opened Text
  import opened Pricing

  const UNASSIGNED := "unassigned"

  /** A stored qualifier answer. */
  datatype Answer = Words(text: string) | Other

  datatype Answers = NotAnObject | Given(values: map<string, Answer>)

  datatype Source = Scan | Badge | Elsewhere

  datatype Row = Row(owner: Option<string>, source: Source, answers: Answers, duplicate: bool, capturedAt: int)

  datatype Member = Member(leads: nat, qualified: nat, duplicates: nat)

  /** Rates are in tenths of a percent, days are counted from 1970. */
  datatype Report = Report(
    leads: nat, qualified: nat, duplicates: nat, scanned: nat, qualificationRate: int, costPerLead: Option<int>,
    members: map<string, Member>, days: map<int, nat>, breakdown: map<string, map<string, nat>>)

  /** `readQualifierValues`: the defined fields that hold a text that is not blank. */
  function Values(answers: Answers, allowed: set<string>): map<string, string> {
    if answers.NotAnObject? then map[]
    else map key | key in answers.values && key in allowed && answers.values[key].Words? && Trim(answers.values[key].text) != []
           :: answers.values[key].text
  }

  /** What counts is a text with more than white space in it, under one of the event's own keys. */
  lemma ValuesExactly(answers: Answers, allowed: set<string>, key: string)
    ensures key in Values(answers, allowed) <==>
            && answers.Given? && key in answers.values && key in allowed && answers.values[key].Words?
            && exists i | 0 <= i < |answers.values[key].text| :: !IsSpace(answers.values[key].text[i])
    ensures key in Values(answers, allowed) ==> Values(answers, allowed)[key] == answers.values[key].text
  {
    if answers.Given? && key in answers.values && answers.values[key].Words? {
      var i, j := TrimCuts(answers.values[key].text);
    }
  }

  function OwnerOf(row: Row): string {
    OrElse(row.owner, UNASSIGNED)
  }

  function DayOf(row: Row): int {
    row.capturedAt / MS_PER_DAY
  }

  // ---- Counting ----

  datatype Query =
    | Any
    | Qualified
    | Duplicate
    | Scanned
    | Owned(id: string, also: Query)
    | OnDay(day: int)
    | Filled(key: string)
    | Valued(key: string, value: string)

  predicate Holds(q: Query, row: Row, keys: set<string>) {
    match q
    case Any => true
    case Qualified => Values(row.answers, keys) != map[]
    case Duplicate => row.duplicate
    case Scanned => row.source == Scan || row.source == Badge
    case Owned(id, also) => OwnerOf(row) == id && Holds(also, row, keys)
    case OnDay(day) => DayOf(row) == day
    case Filled(key) => key in Values(row.answers, keys)
    case Valued(key, value) => key in Values(row.answers, keys) && Values(row.answers, keys)[key] == value
  }

  function Count(rows: seq<Row>, keys: set<string>, q: Query): nat {
    if rows == [] then 0
    else Count(rows[..|rows| - 1], keys, q) + if Holds(q, rows[|rows| - 1], keys) then 1 else 0
  }

  // ---- Sums over a table ----

  function At<K>(m: map<K, nat>, k: K): nat {
    if k in m then m[k] else 0
  }

  ghost function Sum<K>(m: map<K, nat>): nat
    decreases m.Keys
  {
    if m.Keys == {} then 0
    else
      var k :| k in m.Keys;
      m[k] + Sum(m - {k})
  }

  lemma {:induction false} SumWithout<K>(m: map<K, nat>, k: K)
    requires k in m
    ensures Sum(m) == m[k] + Sum(m - {k})
    decreases m.Keys
  {
    var j :| j in m.Keys && Sum(m) == m[j] + Sum(m - {j});
    if j != k {
      SumWithout(m - {j}, k);
      SumWithout(m - {k}, j);
      assert m - {j} - {k} == m - {k} - {j};
    }
  }

  lemma SumSet<K>(m: map<K, nat>, k: K, v: nat)
    ensures Sum(m[k := v]) + At(m, k) == Sum(m) + v
  {
    SumWithout(m[k := v], k);
    if k in m {
      SumWithout(m, k);
      assert m[k := v] - {k} == m - {k};
    } else {
      assert m[k := v] - {k} == m;
    }
  }

  function Leads(members: map<string, Member>): map<string, nat> {
    map id | id in members :: members[id].leads
  }

  function QualifiedBy(members: map<string, Member>): map<string, nat> {
    map id | id in members :: members[id].qualified
  }

  function DuplicatesBy(members: map<string, Member>): map<string, nat> {
    map id | id in members :: members[id].duplicates
  }

  function MemberAt(members: map<string, Member>, id: string): Member {
    if id in members then members[id] else Member(0, 0, 0)
  }

  function One(b: bool): nat {
    if b then 1 else 0
  }

  lemma LeadsSum(members: map<string, Member>, id: string, m: Member)
    ensures Sum(Leads(members[id := m])) + MemberAt(members, id).leads == Sum(Leads(members)) + m.leads
  {
    SumSet(Leads(members), id, m.leads);
    assert Leads(members[id := m]) == Leads(members)[id := m.leads];
  }

  lemma QualifiedSum(members: map<string, Member>, id: string, m: Member)
    ensures Sum(QualifiedBy(members[id := m])) + MemberAt(members, id).qualified == Sum(QualifiedBy(members)) + m.qualified
  {
    SumSet(QualifiedBy(members), id, m.qualified);
    assert QualifiedBy(members[id := m]) == QualifiedBy(members)[id := m.qualified];
  }

  lemma DuplicatesSum(members: map<string, Member>, id: string, m: Member)
    ensures Sum(DuplicatesBy(members[id := m])) + MemberAt(members, id).duplicates == Sum(DuplicatesBy(members)) + m.duplicates
  {
    SumSet(DuplicatesBy(members), id, m.duplicates);
    assert DuplicatesBy(members[id := m]) == DuplicatesBy(members)[id := m.duplicates];
  }

  // ---- The pass ----

  function AddMember(members: map<string, Member>, id: string, qualified: bool, duplicate: bool): map<string, Member> {
    var m := MemberAt(members, id);
    members[id := Member(m.leads + 1, m.qualified + One(qualified), m.duplicates + One(duplicate))]
  }

  /** One more answer in the bucket of each field that has one. */
  function AddAnswers(breakdown: map<string, map<string, nat>>, values: map<string, string>): map<string, map<string, nat>> {
    map key | key in breakdown ::
      if key in values then breakdown[key][values[key] := At(breakdown[key], values[key]) + 1] else breakdown[key]
  }

  /** The variables of the pass. */
  datatype Tally = Tally(qualified: nat, duplicates: nat, scanned: nat, members: map<string, Member>, days: map<int, nat>,
                         breakdown: map<string, map<string, nat>>)

  function AddRow(t: Tally, row: Row, keys: set<string>): Tally {
    var values := Values(row.answers, keys);
    Tally(t.qualified + One(values != map[]), t.duplicates + One(row.duplicate),
          t.scanned + One(row.source == Scan || row.source == Badge),
          AddMember(t.members, OwnerOf(row), values != map[], row.duplicate),
          t.days[DayOf(row) := At(t.days, DayOf(row)) + 1],
          AddAnswers(t.breakdown, values))
  }

  function Pass(rows: seq<Row>, keys: set<string>): (t: Tally)
    ensures t.breakdown.Keys == keys
  {
    if rows == [] then Tally(0, 0, 0, map[], map[], map key | key in keys :: map[])
    else AddRow(Pass(rows[..|rows| - 1], keys), rows[|rows| - 1], keys)
  }

  function Totals(leads: nat, t: Tally, cost: Option<int>): Report {
    Report(leads, t.qualified, t.duplicates, t.scanned,
           if leads == 0 then 0 else RoundHalfUp(1000 * t.qualified, leads),
           if cost.None? || leads == 0 then None else Some(RoundHalfUp(cost.value, leads)),
           t.members, t.days, t.breakdown)
  }

  method CountAnswers(breakdown: map<string, map<string, nat>>, values: map<string, string>)
    returns (after: map<string, map<string, nat>>)
    requires values.Keys <= breakdown.Keys
    ensures after == AddAnswers(breakdown, values)
  {
    after := breakdown;
    var left := values.Keys;
    while left != {}
      invariant left <= values.Keys && after.Keys == breakdown.Keys
      invariant forall key | key in breakdown ::
                  after[key] == if key in values && key !in left
                                then breakdown[key][values[key] := At(breakdown[key], values[key]) + 1] else breakdown[key]
    {
      var key :| key in left;
      left := left - {key};
      var bucket: map<string, nat> := after[key][values[key] := At(after[key], values[key]) + 1];
      after := after[key := bucket];
    }
  }

  /** The body of the loop. */
  method CountRow(t: Tally, row: Row, keys: set<string>) returns (after: Tally)
    requires t.breakdown.Keys == keys
    ensures after == AddRow(t, row, keys)
  {
    var values := Values(row.answers, keys);
    var qualified, duplicates, scanned := t.qualified, t.duplicates, t.scanned;
    if values != map[] {
      qualified := qualified + 1;
    }
    if row.duplicate {
      duplicates := duplicates + 1;
    }
    if row.source == Scan || row.source == Badge {
      scanned := scanned + 1;
    }
    var breakdown := CountAnswers(t.breakdown, values);
    var members := AddMember(t.members, OwnerOf(row), values != map[], row.duplicate);
    var days := t.days[DayOf(row) := At(t.days, DayOf(row)) + 1];
    after := Tally(qualified, duplicates, scanned, members, days, breakdown);
  }

  /** Every figure and every line of the report counts what it says it counts. */
  ghost predicate Reports(r: Report, rows: seq<Row>, keys: set<string>, cost: Option<int>) {
    && r.leads == |rows| && r.qualified == Count(rows, keys, Qualified) && r.duplicates == Count(rows, keys, Duplicate)
    && r.scanned == Count(rows, keys, Scanned)
    && (forall id :: MemberAt(r.members, id) == Figures(rows, keys, id))
    && (forall id :: id in r.members <==> Count(rows, keys, Owned(id, Any)) > 0)
    && (forall day :: At(r.days, day) == Count(rows, keys, OnDay(day)))
    && r.breakdown.Keys == keys
    && (forall key, value | key in keys :: At(r.breakdown[key], value) == Count(rows, keys, Valued(key, value)))
  }

  /** `q` is within half of n / d, ties going up. */
  predicate Close(n: int, d: int, q: int) {
    -d <= 2 * n - 2 * d * q < d
  }

  /** The rate and the cost a lead are within half a unit of exact; without leads there is no cost a lead. */
  predicate RatesClose(r: Report, cost: Option<int>) {
    && (r.leads > 0 ==> Close(1000 * r.qualified, r.leads, r.qualificationRate))
    && (r.leads == 0 ==> r.qualificationRate == 0)
    && (r.costPerLead.Some? <==> cost.Some? && r.leads > 0)
    && (r.costPerLead.Some? ==> Close(cost.value, r.leads, r.costPerLead.value))
  }

  lemma TotalsReport(rows: seq<Row>, keys: set<string>, cost: Option<int>)
    ensures Reports(Totals(|rows|, Pass(rows, keys), cost), rows, keys, cost)
    ensures RatesClose(Totals(|rows|, Pass(rows, keys), cost), cost)
  {
    var t := Pass(rows, keys);
    FiguresCount(rows, keys);
    forall id ensures MemberAt(t.members, id) == Figures(rows, keys, id) && (id in t.members <==> Figures(rows, keys, id).leads > 0) {
      MembersCount(rows, keys, id);
    }
    forall day ensures At(t.days, day) == Count(rows, keys, OnDay(day)) {
      DaysCount(rows, keys, day);
    }
    forall key, value | key in keys ensures At(t.breakdown[key], value) == Count(rows, keys, Valued(key, value)) {
      AnswersCount(rows, keys, key, value);
    }
    TotalsClose(|rows|, t, cost);
  }

  lemma TotalsClose(leads: nat, t: Tally, cost: Option<int>)
    ensures RatesClose(Totals(leads, t, cost), cost)
  {
    if leads > 0 {
      RoundedClosely(1000 * t.qualified, leads);
      if cost.Some? {
        RoundedClosely(cost.value, leads);
      }
    }
  }

  method BuildReport(rows: seq<Row>, keys: set<string>, cost: Option<int>) returns (r: Report)
    ensures r == Totals(|rows|, Pass(rows, keys), cost)
    ensures Reports(r, rows, keys, cost) && RatesClose(r, cost)
  {
    var t := Tally(0, 0, 0, map[], map[], map key | key in keys :: map[]);
    for k := 0 to |rows|
      invariant t == Pass(rows[..k], keys)
    {
      assert rows[..k + 1][..k] == rows[..k];
      t := CountRow(t, rows[k], keys);
    }
    assert rows[..|rows|] == rows;
    r := Totals(|rows|, t, cost);
    TotalsReport(rows, keys, cost);
  }

  // ---- The tables agree with the rows ----

  lemma {:induction false} FiguresCount(rows: seq<Row>, keys: set<string>)
    ensures var t := Pass(rows, keys);
            && t.qualified == Count(rows, keys, Qualified) && t.duplicates == Count(rows, keys, Duplicate)
            && t.scanned == Count(rows, keys, Scanned)
  {
    if rows != [] {
      FiguresCount(rows[..|rows| - 1], keys);
    }
  }

  lemma MemberStep(members: map<string, Member>, row: Row, keys: set<string>, id: string)
    ensures var after := AddMember(members, OwnerOf(row), Values(row.answers, keys) != map[], row.duplicate);
            var m := MemberAt(members, id);
            && (id in after <==> id in members || Holds(Owned(id, Any), row, keys))
            && MemberAt(after, id) == Member(m.leads + One(Holds(Owned(id, Any), row, keys)),
                                             m.qualified + One(Holds(Owned(id, Qualified), row, keys)),
                                             m.duplicates + One(Holds(Owned(id, Duplicate), row, keys)))
  {
  }

  function Figures(rows: seq<Row>, keys: set<string>, id: string): Member {
    Member(Count(rows, keys, Owned(id, Any)), Count(rows, keys, Owned(id, Qualified)), Count(rows, keys, Owned(id, Duplicate)))
  }

  lemma FiguresStep(rows: seq<Row>, keys: set<string>, id: string)
    requires rows != []
    ensures var n := |rows| - 1;
            var m := Figures(rows[..n], keys, id);
            Figures(rows, keys, id) == Member(m.leads + One(Holds(Owned(id, Any), rows[n], keys)),
                                              m.qualified + One(Holds(Owned(id, Qualified), rows[n], keys)),
                                              m.duplicates + One(Holds(Owned(id, Duplicate), rows[n], keys)))
  {
  }

  /** Each member's line counts that member's contacts; a member without any has no line. */
  lemma {:induction false} MembersCount(rows: seq<Row>, keys: set<string>, id: string)
    ensures MemberAt(Pass(rows, keys).members, id) == Figures(rows, keys, id)
    ensures id in Pass(rows, keys).members <==> Figures(rows, keys, id).leads > 0
  {
    if rows != [] {
      var n := |rows| - 1;
      MembersCount(rows[..n], keys, id);
      MemberStep(Pass(rows[..n], keys).members, rows[n], keys, id);
      FiguresStep(rows, keys, id);
    }
  }

  /** Each day of the report counts the contacts captured on it. */
  lemma {:induction false} DaysCount(rows: seq<Row>, keys: set<string>, day: int)
    ensures At(Pass(rows, keys).days, day) == Count(rows, keys, OnDay(day))
  {
    if rows != [] {
      DaysCount(rows[..|rows| - 1], keys, day);
    }
  }

  lemma AnswerStep(breakdown: map<string, map<string, nat>>, row: Row, keys: set<string>, key: string, value: string)
    requires key in breakdown
    ensures At(AddAnswers(breakdown, Values(row.answers, keys))[key], value) ==
            At(breakdown[key], value) + One(Holds(Valued(key, value), row, keys))
  {
  }

  lemma {:induction false} AnswersCount(rows: seq<Row>, keys: set<string>, key: string, value: string)
    requires key in keys
    ensures At(Pass(rows, keys).breakdown[key], value) == Count(rows, keys, Valued(key, value))
  {
    if rows != [] {
      var n := |rows| - 1;
      AnswersCount(rows[..n], keys, key, value);
      AnswerStep(Pass(rows[..n], keys).breakdown, rows[n], keys, key, value);
      assert Pass(rows, keys).breakdown == AddAnswers(Pass(rows[..n], keys).breakdown, Values(rows[n].answers, keys));
    }
  }

  // ---- The tables agree with each other ----

  lemma MemberSums(members: map<string, Member>, id: string, m: Member, m': Member)
    requires m == MemberAt(members, id)
    ensures Sum(Leads(members[id := m'])) + m.leads == Sum(Leads(members)) + m'.leads
    ensures Sum(QualifiedBy(members[id := m'])) + m.qualified == Sum(QualifiedBy(members)) + m'.qualified
    ensures Sum(DuplicatesBy(members[id := m'])) + m.duplicates == Sum(DuplicatesBy(members)) + m'.duplicates
  {
    LeadsSum(members, id, m');
    QualifiedSum(members, id, m');
    DuplicatesSum(members, id, m');
  }

  lemma AddMemberSums(members: map<string, Member>, id: string, qualified: bool, duplicate: bool)
    ensures var after := AddMember(members, id, qualified, duplicate);
            && Sum(Leads(after)) == Sum(Leads(members)) + 1
            && Sum(QualifiedBy(after)) == Sum(QualifiedBy(members)) + One(qualified)
            && Sum(DuplicatesBy(after)) == Sum(DuplicatesBy(members)) + One(duplicate)
  {
    var m := MemberAt(members, id);
    MemberSums(members, id, m, Member(m.leads + 1, m.qualified + One(qualified), m.duplicates + One(duplicate)));
  }

  /** The event's leads, qualified leads and duplicates are the sums of its members'. */
  lemma {:induction false} MembersAddUp(rows: seq<Row>, keys: set<string>)
    ensures var t := Pass(rows, keys);
            Sum(Leads(t.members)) == |rows| && Sum(QualifiedBy(t.members)) == t.qualified && Sum(DuplicatesBy(t.members)) == t.duplicates
  {
    if rows == [] {
      assert Leads(map[]) == map[] && QualifiedBy(map[]) == map[] && DuplicatesBy(map[]) == map[];
    } else {
      var n := |rows| - 1;
      MembersAddUp(rows[..n], keys);
      AddMemberSums(Pass(rows[..n], keys).members, OwnerOf(rows[n]), Values(rows[n].answers, keys) != map[], rows[n].duplicate);
    }
  }

  /** So are its leads of its days'. */
  lemma {:induction false} DaysAddUp(rows: seq<Row>, keys: set<string>)
    ensures Sum(Pass(rows, keys).days) == |rows|
  {
    if rows != [] {
      var n := |rows| - 1;
      DaysAddUp(rows[..n], keys);
      var days, day := Pass(rows[..n], keys).days, DayOf(rows[n]);
      SumSet(days, day, At(days, day) + 1);
    }
  }

  lemma AnswerSum(breakdown: map<string, map<string, nat>>, row: Row, keys: set<string>, key: string)
    requires key in breakdown
    ensures Sum(AddAnswers(breakdown, Values(row.answers, keys))[key]) == Sum(breakdown[key]) + One(Holds(Filled(key), row, keys))
  {
    var values := Values(row.answers, keys);
    if key in values {
      SumSet(breakdown[key], values[key], At(breakdown[key], values[key]) + 1);
    }
  }

  /** A field's values add up to the contacts that filled it. */
  lemma {:induction false} AnswersAddUp(rows: seq<Row>, keys: set<string>, key: string)
    requires key in keys
    ensures Sum(Pass(rows, keys).breakdown[key]) == Count(rows, keys, Filled(key))
  {
    if rows != [] {
      var n := |rows| - 1;
      AnswersAddUp(rows[..n], keys, key);
      AnswerSum(Pass(rows[..n], keys).breakdown, rows[n], keys, key);
      assert Pass(rows, keys).breakdown == AddAnswers(Pass(rows[..n], keys).breakdown, Values(rows[n].answers, keys));
    }
  }

  lemma {:induction false} CountAtMost(rows: seq<Row>, keys: set<string>, q: Query)
    ensures Count(rows, keys, q) <= |rows|
  {
    if rows != [] {
      CountAtMost(rows[..|rows| - 1], keys, q);
    }
  }

  /** The qualification rate lies between 0 and 100%. */
  lemma RateBounds(rows: seq<Row>, keys: set<string>, cost: Option<int>)
    ensures 0 <= Totals(|rows|, Pass(rows, keys), cost).qualificationRate <= 1000
  {
    FiguresCount(rows, keys);
    CountAtMost(rows, keys, Qualified);
    if rows != [] {
      RoundMonotone(0, 1000 * Count(rows, keys, Qualified), |rows|);
      RoundMonotone(1000 * Count(rows, keys, Qualified), 1000 * |rows|, |rows|);
      RoundedIs(0, |rows|, 0);
      RoundedIs(1000 * |rows|, |rows|, 1000);
    }
  }

  /** No field was filled by more contacts than are qualified, and no member has more of anything than the event. */
  lemma {:induction false} PartsWithinWhole(rows: seq<Row>, keys: set<string>, key: string, id: string, q: Query)
    ensures Count(rows, keys, Filled(key)) <= Count(rows, keys, Qualified)
    ensures Count(rows, keys, Owned(id, q)) <= Count(rows, keys, q)
  {
    if rows != [] {
      PartsWithinWhole(rows[..|rows| - 1], keys, key, id, q);
    }
  }
}
