/** Reading an employee file: header aliases, and the one pass that parts its rows into accepted and refused. */
module EmployeeImport {
  import opened Base
  import opened Csv
  import opened Text

  const MAX_IMPORT_ROWS := 2000

  datatype Column = EmailColumn | FullName | JobTitle | EmployeeNo | DepartmentCode | BranchCode | RoleColumn

  const COLUMNS: seq<Column> := [EmailColumn, FullName, JobTitle, EmployeeNo, DepartmentCode, BranchCode, RoleColumn]

  function Aliases(column: Column): set<string> {
    match column
    case EmailColumn => {"email", "e-mail", "mail", "البريد", "البريد الالكتروني", "البريد الإلكتروني"}
    case FullName => {"full_name", "fullname", "name", "الاسم", "الاسم الكامل"}
    case JobTitle => {"job_title", "jobtitle", "title", "position", "المسمى", "المسمى الوظيفي"}
    case EmployeeNo => {"employee_no", "employee_number", "staff_id", "الرقم الوظيفي", "رقم الموظف"}
    case DepartmentCode => {"department", "department_code", "dept", "الادارة", "الإدارة", "القسم"}
    case BranchCode => {"branch", "branch_code", "الفرع"}
    case RoleColumn => {"role", "الدور", "الصلاحية"}
  }

  /** `normalized.replace(/ /g, '_')` */
  function Underscored(s: string): string {
    seq(|s|, i requires 0 <= i < |s| => if s[i] == ' ' then '_' else s[i])
  }

  /** `normalize` stands for lower-casing and collapsing inner white space. */
  predicate Names(raw: string, column: Column, normalize: string -> string) {
    var n := normalize(Trim(raw));
    n in Aliases(column) || Underscored(n) in Aliases(column)
  }

  /** A header may have spaces where the alias has underscores. */
  lemma SpacesForUnderscores(raw: string, column: Column, normalize: string -> string, alias: string)
    requires alias in Aliases(column) && ' ' !in alias && |normalize(Trim(raw))| == |alias|
    requires forall i | 0 <= i < |alias| ::
               normalize(Trim(raw))[i] == alias[i] || (alias[i] == '_' && normalize(Trim(raw))[i] == ' ')
    ensures Names(raw, column, normalize)
  {
    assert Underscored(normalize(Trim(raw))) == alias;
  }

  /** The first of the first `n` header cells that names the column. */
  function FirstNaming(header: Row, column: Column, normalize: string -> string, n: nat): (r: Option<nat>)
    requires n <= |header|
    ensures r.Some? ==> r.value < n && Names(header[r.value], column, normalize)
    ensures forall j | 0 <= j < (if r.Some? then r.value else n) :: !Names(header[j], column, normalize)
  {
    if n == 0 then None
    else
      var earlier := FirstNaming(header, column, normalize, n - 1);
      if earlier.Some? then earlier
      else if Names(header[n - 1], column, normalize) then Some(n - 1)
      else None
  }

  ghost predicate MapsFirst(mapping: map<Column, nat>, header: Row, normalize: string -> string, n: nat)
    requires n <= |header|
  {
    forall c: Column ::
      FirstNaming(header, c, normalize, n) == if c in mapping then Some(mapping[c]) else None
  }

  /** Each column is read from the first header cell that names it. */
  method MapHeaders(header: Row, normalize: string -> string) returns (mapping: map<Column, nat>)
    ensures MapsFirst(mapping, header, normalize, |header|)
  {
    mapping := map[];
    for index := 0 to |header|
      invariant MapsFirst(mapping, header, normalize, index)
    {
      mapping := AddHeader(mapping, header, index, normalize);
    }
  }

  method AddHeader(before: map<Column, nat>, header: Row, index: nat, normalize: string -> string)
    returns (mapping: map<Column, nat>)
    requires index < |header| && MapsFirst(before, header, normalize, index)
    ensures MapsFirst(mapping, header, normalize, index + 1)
  {
    mapping := before;
    for k := 0 to |COLUMNS|
      invariant forall c :: c in before ==> c in mapping && mapping[c] == before[c]
      invariant forall c :: c in mapping && c !in before ==>
                  mapping[c] == index && Names(header[index], c, normalize)
      invariant forall i | 0 <= i < k :: COLUMNS[i] in mapping || !Names(header[index], COLUMNS[i], normalize)
    {
      if COLUMNS[k] !in mapping && Names(header[index], COLUMNS[k], normalize) {
        mapping := mapping[COLUMNS[k] := index];
      }
    }
    forall c: Column
      ensures FirstNaming(header, c, normalize, index + 1) == if c in mapping then Some(mapping[c]) else None
    {
      AllColumns(c);
    }
  }

  lemma AllColumns(c: Column)
    ensures exists i | 0 <= i < |COLUMNS| :: COLUMNS[i] == c
  {
    match c
    case EmailColumn => assert COLUMNS[0] == c;
    case FullName => assert COLUMNS[1] == c;
    case JobTitle => assert COLUMNS[2] == c;
    case EmployeeNo => assert COLUMNS[3] == c;
    case DepartmentCode => assert COLUMNS[4] == c;
    case BranchCode => assert COLUMNS[5] == c;
    case RoleColumn => assert COLUMNS[6] == c;
  }

  // ---- One row ----

  datatype Candidate = Candidate(email: string, fullName: Option<string>, jobTitle: Option<string>,
                                 employeeNo: Option<string>, departmentCode: Option<string>,
                                 branchCode: Option<string>, role: Option<string>)

  /** A schema's answer: the cleaned row, or the first field at fault. */
  type Schema = Candidate -> Result<Candidate, Option<string>>

  function Read(cells: Row, mapping: map<Column, nat>, column: Column): Option<string> {
    if column !in mapping || mapping[column] >= |cells| then None
    else
      var value := Trim(cells[mapping[column]]);
      if value == "" then None else Some(value)
  }

  function CandidateOf(cells: Row, mapping: map<Column, nat>, lower: string -> string): Candidate {
    var role := Read(cells, mapping, RoleColumn);
    Candidate(OrElse(Read(cells, mapping, EmailColumn), ""), Read(cells, mapping, FullName),
              Read(cells, mapping, JobTitle), Read(cells, mapping, EmployeeNo),
              Read(cells, mapping, DepartmentCode), Read(cells, mapping, BranchCode),
              if role.Some? then Some(lower(role.value)) else None)
  }

  /** The value is what the row's cell under the column's header holds between white space; no value if that is nothing. */
  ghost predicate ReadsCell(value: Option<string>, cells: Row, mapping: map<Column, nat>, column: Column) {
    if column in mapping && mapping[column] < |cells|
    then TrimsTo(cells[mapping[column]], OrElse(value, "")) && value != Some("")
    else value == None
  }

  lemma CellRead(cells: Row, mapping: map<Column, nat>, column: Column)
    ensures ReadsCell(Read(cells, mapping, column), cells, mapping, column)
  {
    if column in mapping && mapping[column] < |cells| {
      var i, j := TrimCuts(cells[mapping[column]]);
    }
  }

  /** Each field is read from the cell under its own column's header; only the role is lower-cased. */
  lemma FieldsRead(cells: Row, mapping: map<Column, nat>, lower: string -> string)
    ensures var c := CandidateOf(cells, mapping, lower);
            && (exists email: Option<string> :: ReadsCell(email, cells, mapping, EmailColumn) && c.email == OrElse(email, ""))
            && ReadsCell(c.fullName, cells, mapping, FullName) && ReadsCell(c.jobTitle, cells, mapping, JobTitle)
            && ReadsCell(c.employeeNo, cells, mapping, EmployeeNo) && ReadsCell(c.departmentCode, cells, mapping, DepartmentCode)
            && ReadsCell(c.branchCode, cells, mapping, BranchCode)
            && (exists role: Option<string> :: ReadsCell(role, cells, mapping, RoleColumn) &&
                  c.role == if role.Some? then Some(lower(role.value)) else None)
  {
    CellRead(cells, mapping, FullName);
    CellRead(cells, mapping, JobTitle);
    CellRead(cells, mapping, EmployeeNo);
    CellRead(cells, mapping, DepartmentCode);
    CellRead(cells, mapping, BranchCode);
    CellRead(cells, mapping, EmailColumn);
    CellRead(cells, mapping, RoleColumn);
  }

  // ---- The whole body ----

  datatype Reason = InvalidValue | DuplicateInFile

  datatype RowError = RowError(row: nat, reason: Reason, field: Option<string>)

  datatype ImportRow = ImportRow(rowNumber: nat, data: Candidate)

  datatype FormatError = EmptyFile | NoEmailColumn | TooManyRows

  datatype ParsedImport = ParsedImport(rows: seq<ImportRow>, errors: seq<RowError>, totalRows: nat)

  type Checked = seq<Result<Candidate, Option<string>>>

  /** The schema's answer for every body row. */
  function Check(body: Table, mapping: map<Column, nat>, lower: string -> string, schema: Schema): Checked {
    seq(|body|, i requires 0 <= i < |body| => schema(CandidateOf(body[i], mapping, lower)))
  }

  predicate Valid(checked: Checked, i: int) {
    0 <= i < |checked| && checked[i].Ok?
  }

  /** A row is accepted when it is valid and no earlier valid row has its email. */
  predicate Accepted(checked: Checked, i: int) {
    Valid(checked, i) && forall j | 0 <= j < i :: Valid(checked, j) ==> checked[j].value.email != checked[i].value.email
  }

  function ErrorOf(checked: Checked, i: nat): RowError
    requires i < |checked| && !Accepted(checked, i)
  {
    if checked[i].Err? then RowError(i + 2, InvalidValue, checked[i].error)
    else RowError(i + 2, DuplicateInFile, Some("email"))
  }

  function AcceptedRows(checked: Checked, n: nat): seq<ImportRow>
    requires n <= |checked|
  {
    if n == 0 then []
    else AcceptedRows(checked, n - 1) +
         if Accepted(checked, n - 1) then [ImportRow(n + 1, checked[n - 1].value)] else []
  }

  function RefusedRows(checked: Checked, n: nat): seq<RowError>
    requires n <= |checked|
  {
    if n == 0 then []
    else RefusedRows(checked, n - 1) + if Accepted(checked, n - 1) then [] else [ErrorOf(checked, n - 1)]
  }

  /** The import: the first row is the header, the rest is parted in one pass. */
  method ParseEmployeeCsv(content: string, normalize: string -> string, lower: string -> string, schema: Schema)
    returns (result: Result<ParsedImport, FormatError>, mapping: map<Column, nat>)
    ensures var table := ReadTable(content);
            && (table != [] ==> MapsFirst(mapping, table[0], normalize, |table[0]|))
            && (result.Err? <==> table == [] || EmailColumn !in mapping || |table| - 1 > MAX_IMPORT_ROWS)
            && (result.Ok? ==>
                  var checked := Check(table[1..], mapping, lower, schema);
                  result.value ==
                  ParsedImport(AcceptedRows(checked, |checked|), RefusedRows(checked, |checked|), |table| - 1))
  {
    var table := ParseCsv(content);
    if table == [] {
      return Err(EmptyFile), map[];
    }
    mapping := MapHeaders(table[0], normalize);
    if EmailColumn !in mapping {
      return Err(NoEmailColumn), mapping;
    }
    var body := table[1..];
    if |body| > MAX_IMPORT_ROWS {
      return Err(TooManyRows), mapping;
    }
    var rows, errors := PartBody(body, mapping, lower, schema);
    result := Ok(ParsedImport(rows, errors, |body|));
  }

  /** The pass over the body with its set of emails seen so far. */
  method PartBody(body: Table, mapping: map<Column, nat>, lower: string -> string, schema: Schema)
    returns (rows: seq<ImportRow>, errors: seq<RowError>)
    ensures var checked := Check(body, mapping, lower, schema);
            rows == AcceptedRows(checked, |checked|) && errors == RefusedRows(checked, |checked|)
  {
    var seen: set<string> := {};
    rows, errors := [], [];
    ghost var checked := Check(body, mapping, lower, schema);
    for index := 0 to |body|
      invariant rows == AcceptedRows(checked, index) && errors == RefusedRows(checked, index)
      invariant forall e :: e in seen <==> exists j | 0 <= j < index :: Valid(checked, j) && checked[j].value.email == e
    {
      var rowNumber := index + 2;
      var answer := schema(CandidateOf(body[index], mapping, lower));
      assert answer == checked[index];
      if answer.Err? {
        errors := errors + [RowError(rowNumber, InvalidValue, answer.error)];
      } else if answer.value.email in seen {
        errors := errors + [RowError(rowNumber, DuplicateInFile, Some("email"))];
      } else {
        seen := seen + {answer.value.email};
        rows := rows + [ImportRow(rowNumber, answer.value)];
      }
    }
  }

  // ---- What the two lists are ----

  predicate AcceptedAt(checked: Checked, n: nat, r: ImportRow) {
    2 <= r.rowNumber < n + 2 && Accepted(checked, r.rowNumber - 2) && checked[r.rowNumber - 2].value == r.data
  }

  predicate RefusedAt(checked: Checked, n: nat, e: RowError)
    requires n <= |checked|
  {
    2 <= e.row < n + 2 && !Accepted(checked, e.row - 2) && e == ErrorOf(checked, e.row - 2)
  }

  lemma {:induction false} AcceptedMember(checked: Checked, n: nat)
    requires n <= |checked|
    ensures forall r :: r in AcceptedRows(checked, n) <==> AcceptedAt(checked, n, r)
    ensures forall a, b | 0 <= a < b < |AcceptedRows(checked, n)| ::
              AcceptedRows(checked, n)[a].rowNumber < AcceptedRows(checked, n)[b].rowNumber
  {
    if n > 0 {
      AcceptedMember(checked, n - 1);
      var prior := AcceptedRows(checked, n - 1);
      assert forall a | 0 <= a < |prior| :: prior[a] in prior;
    }
  }

  lemma {:induction false} RefusedMember(checked: Checked, n: nat)
    requires n <= |checked|
    ensures forall e :: e in RefusedRows(checked, n) <==> RefusedAt(checked, n, e)
    ensures forall a, b | 0 <= a < b < |RefusedRows(checked, n)| ::
              RefusedRows(checked, n)[a].row < RefusedRows(checked, n)[b].row
  {
    if n > 0 {
      RefusedMember(checked, n - 1);
      var prior := RefusedRows(checked, n - 1);
      assert forall a | 0 <= a < |prior| :: prior[a] in prior;
    }
  }

  lemma {:induction false} ListsCover(checked: Checked, n: nat)
    requires n <= |checked|
    ensures |AcceptedRows(checked, n)| + |RefusedRows(checked, n)| == n
  {
    if n > 0 {
      ListsCover(checked, n - 1);
    }
  }

  ghost predicate InRows(rows: seq<ImportRow>, number: nat) {
    exists r :: r in rows && r.rowNumber == number
  }

  ghost predicate InErrors(errors: seq<RowError>, number: nat) {
    exists e :: e in errors && e.row == number
  }

  /** Every body row number is in exactly one of the two lists, each of which is in file order. */
  lemma ImportPartitions(checked: Checked, number: nat)
    ensures var rows, errors := AcceptedRows(checked, |checked|), RefusedRows(checked, |checked|);
            && (2 <= number < |checked| + 2 <==> InRows(rows, number) || InErrors(errors, number))
            && !(InRows(rows, number) && InErrors(errors, number))
            && |rows| + |errors| == |checked|
            && (forall a, b | 0 <= a < b < |rows| :: rows[a].rowNumber < rows[b].rowNumber)
            && (forall a, b | 0 <= a < b < |errors| :: errors[a].row < errors[b].row)
  {
    var n := |checked|;
    AcceptedMember(checked, n);
    RefusedMember(checked, n);
    ListsCover(checked, n);
    if 2 <= number < n + 2 {
      if Accepted(checked, number - 2) {
        assert AcceptedAt(checked, n, ImportRow(number, checked[number - 2].value));
      } else {
        assert RefusedAt(checked, n, ErrorOf(checked, number - 2));
      }
    }
  }

  lemma {:induction false} FirstWithEmail(checked: Checked, j: nat) returns (first: nat)
    requires Valid(checked, j)
    ensures first <= j && Accepted(checked, first) && checked[first].value.email == checked[j].value.email
  {
    if k :| 0 <= k < j && Valid(checked, k) && checked[k].value.email == checked[j].value.email {
      first := FirstWithEmail(checked, k);
    } else {
      first := j;
    }
  }

  /** Accepted emails are pairwise distinct, and a row is a duplicate exactly when an earlier accepted row has its email. */
  lemma EmailsDistinct(checked: Checked, a: nat, b: nat)
    requires a < b < |AcceptedRows(checked, |checked|)|
    ensures AcceptedRows(checked, |checked|)[a].data.email != AcceptedRows(checked, |checked|)[b].data.email
  {
    AcceptedMember(checked, |checked|);
    var rows := AcceptedRows(checked, |checked|);
    assert rows[a] in rows && rows[b] in rows;
  }

  lemma DuplicateExactly(checked: Checked, i: nat)
    requires Valid(checked, i)
    ensures RowError(i + 2, DuplicateInFile, Some("email")) in RefusedRows(checked, |checked|) <==>
            exists r :: r in AcceptedRows(checked, |checked|) && r.rowNumber < i + 2 && r.data.email == checked[i].value.email
  {
    var rows, errors := AcceptedRows(checked, |checked|), RefusedRows(checked, |checked|);
    AcceptedMember(checked, |checked|);
    RefusedMember(checked, |checked|);
    if !Accepted(checked, i) {
      var j :| 0 <= j < i && Valid(checked, j) && checked[j].value.email == checked[i].value.email;
      var first := FirstWithEmail(checked, j);
      assert AcceptedAt(checked, |checked|, ImportRow(first + 2, checked[first].value));
      assert RefusedAt(checked, |checked|, ErrorOf(checked, i));
    }
  }
}
