/** The contact export: which columns it has, and that reading it back shifts no column and loses no row. */
module ContactExport {
  import opened Base
  import opened Csv
  import opened Text

  datatype Source = CardForm | Manual | Import | Scan | Badge

  datatype Field = Field(key: string, value: string)

  datatype Contact = Contact(fullName: string, email: Option<string>, phone: Option<string>,
                             organizationName: Option<string>, jobTitle: Option<string>, source: Source,
                             followUpStatus: string, tags: seq<string>, cardSlug: Option<string>,
                             message: Option<string>, customFields: seq<Field>, capturedAt: string)

  const BASE_COLUMNS: seq<string> := [
    "full_name", "email", "phone", "organization_name", "job_title", "source",
    "follow_up_status", "tags", "card_slug", "message", "captured_at"]

  function SourceText(source: Source): string {
    match source
    case CardForm => "card_form"
    case Manual => "manual"
    case Import => "import"
    case Scan => "scan"
    case Badge => "badge"
  }

  // ---- The union of the custom keys, sorted ----

  predicate Less(a: string, b: string) {
    b != [] && (a == [] || a[0] < b[0] || (a[0] == b[0] && Less(a[1..], b[1..])))
  }

  lemma {:induction false} LessTotal(a: string, b: string)
    ensures Less(a, b) || a == b || Less(b, a)
  {
    if a != [] && b != [] && a[0] == b[0] {
      LessTotal(a[1..], b[1..]);
      if a[1..] == b[1..] {
        assert a == [a[0]] + a[1..] && b == [b[0]] + b[1..];
      }
    }
  }

  predicate Ascending(keys: seq<string>) {
    forall i | 0 < i < |keys| :: Less(keys[i - 1], keys[i])
  }

  function InsertKey(key: string, keys: seq<string>): (r: seq<string>)
    requires Ascending(keys)
    ensures Ascending(r) && forall k :: k in r <==> k == key || k in keys
    ensures r != [] && (r[0] == key || (keys != [] && r[0] == keys[0]))
  {
    if keys == [] then [key]
    else if key == keys[0] then keys
    else if Less(key, keys[0]) then [key] + keys
    else
      LessTotal(key, keys[0]);
      assert Ascending(keys[1..]) by { assert forall i | 0 < i < |keys[1..]| :: keys[1..][i] == keys[i + 1]; }
      [keys[0]] + InsertKey(key, keys[1..])
  }

  predicate HasField(fields: seq<Field>, key: string) {
    exists i | 0 <= i < |fields| :: fields[i].key == key
  }

  function InsertAll(fields: seq<Field>, keys: seq<string>): (r: seq<string>)
    requires Ascending(keys)
    ensures Ascending(r)
    ensures forall k :: k in r <==> k in keys || HasField(fields, k)
  {
    if fields == [] then keys
    else
      assert forall k :: HasField(fields, k) <==> fields[0].key == k || HasField(fields[1..], k) by {
        assert forall i | 1 <= i < |fields| :: fields[i] == fields[1..][i - 1];
      }
      InsertAll(fields[1..], InsertKey(fields[0].key, keys))
  }

  /** Some contact has a value under the key. */
  predicate UsedKey(contacts: seq<Contact>, key: string) {
    exists i | 0 <= i < |contacts| :: HasField(contacts[i].customFields, key)
  }

  lemma UsedKeyStep(contacts: seq<Contact>, key: string)
    requires contacts != []
    ensures UsedKey(contacts, key) <==> HasField(contacts[0].customFields, key) || UsedKey(contacts[1..], key)
  {
    if UsedKey(contacts[1..], key) {
      var i :| 0 <= i < |contacts[1..]| && HasField(contacts[1..][i].customFields, key);
      assert contacts[i + 1] == contacts[1..][i];
    }
    if UsedKey(contacts, key) && !HasField(contacts[0].customFields, key) {
      var i :| 0 <= i < |contacts| && HasField(contacts[i].customFields, key);
      assert contacts[i] == contacts[1..][i - 1];
    }
  }

  /** The keys that occur in any contact, and no others, in ascending order. */
  function CustomKeys(contacts: seq<Contact>): (r: seq<string>)
    ensures Ascending(r)
    ensures forall k :: k in r <==> UsedKey(contacts, k)
  {
    if contacts == [] then []
    else
      assert forall k :: UsedKey(contacts, k) <==> HasField(contacts[0].customFields, k) || UsedKey(contacts[1..], k) by {
        forall k {
          UsedKeyStep(contacts, k);
        }
      }
      InsertAll(contacts[0].customFields, CustomKeys(contacts[1..]))
  }

  // ---- The table ----

  function Lookup(fields: seq<Field>, key: string): Option<string> {
    if fields == [] then None
    else if fields[0].key == key then Some(fields[0].value)
    else Lookup(fields[1..], key)
  }

  function Join(parts: seq<string>, separator: string): string {
    if parts == [] then [] else if |parts| == 1 then parts[0]
    else parts[0] + separator + Join(parts[1..], separator)
  }

  /** A tag more follows the separator. */
  lemma {:induction false} JoinOneMore(parts: seq<string>, part: string, separator: string)
    ensures Join(parts + [part], separator) == if parts == [] then part else Join(parts, separator) + separator + part
  {
    if parts != [] {
      JoinOneMore(parts[1..], part, separator);
      assert (parts + [part])[1..] == parts[1..] + [part];
      if |parts| > 1 {
        assert parts[0] + separator + (Join(parts[1..], separator) + separator + part) ==
               parts[0] + separator + Join(parts[1..], separator) + separator + part;
      }
    }
  }

  function Header(keys: seq<string>): Row {
    BASE_COLUMNS + seq(|keys|, j requires 0 <= j < |keys| => "custom_" + keys[j])
  }

  function ContactRow(c: Contact, keys: seq<string>): Row {
    [c.fullName, OrElse(c.email, ""), OrElse(c.phone, ""), OrElse(c.organizationName, ""), OrElse(c.jobTitle, ""),
     SourceText(c.source), c.followUpStatus, Join(c.tags, " | "), OrElse(c.cardSlug, ""), OrElse(c.message, ""),
     c.capturedAt] + seq(|keys|, j requires 0 <= j < |keys| => OrElse(Lookup(c.customFields, keys[j]), ""))
  }

  function ExportTable(contacts: seq<Contact>): Table {
    var keys := CustomKeys(contacts);
    [Header(keys)] + seq(|contacts|, i requires 0 <= i < |contacts| => ContactRow(contacts[i], keys))
  }

  function BuildContactsCsv(contacts: seq<Contact>): string {
    PrintTable(ExportTable(contacts))
  }

  lemma TableShape(contacts: seq<Contact>, i: nat)
    requires i <= |contacts|
    ensures var keys, table := CustomKeys(contacts), GuardTable(ExportTable(contacts));
            && table[i] == GuardRow(if i == 0 then Header(keys) else ContactRow(contacts[i - 1], keys))
            && |table[i]| == 11 + |keys|
            && !IsBlankRow(table[i])
  {
    var keys := CustomKeys(contacts);
    if i == 0 {
      HeaderNotBlank(keys);
    } else {
      ContactNotBlank(contacts[i - 1], keys);
    }
  }

  lemma HeaderNotBlank(keys: seq<string>)
    ensures |GuardRow(Header(keys))| == 11 + |keys| && !IsBlankRow(GuardRow(Header(keys)))
  {
    assert GuardRow(Header(keys))[1] == "email" && Trim("email") == "email";
  }

  lemma ContactNotBlank(contact: Contact, keys: seq<string>)
    ensures |GuardRow(ContactRow(contact, keys))| == 11 + |keys| && !IsBlankRow(GuardRow(ContactRow(contact, keys)))
  {
    SourceNotBlank(contact.source);
    assert GuardRow(ContactRow(contact, keys))[5] == SourceText(contact.source);
  }

  lemma SourceNotBlank(source: Source)
    ensures Guard(SourceText(source)) == SourceText(source) && |Trim(SourceText(source))| > 0
  {
  }

  /** One header and one row per contact, all of the same width, each value guarded and in its own column. */
  ghost predicate ExportShape(table: Table, contacts: seq<Contact>) {
    var keys := CustomKeys(contacts);
    && |table| == 1 + |contacts|
    && table[0] == GuardRow(Header(keys))
    && (forall i | 0 <= i < |contacts| :: table[i + 1] == GuardRow(ContactRow(contacts[i], keys)))
    && (forall i | 0 <= i < |table| :: |table[i]| == 11 + |keys|)
  }

  lemma PrintedShape(contacts: seq<Contact>)
    ensures ExportShape(GuardTable(ExportTable(contacts)), contacts)
  {
    var table := GuardTable(ExportTable(contacts));
    forall i | 0 <= i < |table| ensures |table[i]| == 11 + |CustomKeys(contacts)| {
      TableShape(contacts, i);
    }
    TableShape(contacts, 0);
    forall i | 0 <= i < |contacts| ensures table[i + 1] == GuardRow(ContactRow(contacts[i], CustomKeys(contacts))) {
      TableShape(contacts, i + 1);
    }
  }

  lemma NoRowDropped(contacts: seq<Contact>)
    ensures DropBlankRows(GuardTable(ExportTable(contacts))) == GuardTable(ExportTable(contacts))
  {
    var table := GuardTable(ExportTable(contacts));
    forall i | 0 <= i < |table| ensures !IsBlankRow(table[i]) {
      TableShape(contacts, i);
    }
    DropBlankFixpoint(table);
  }

  /** Whatever strangers typed into a form, the export reads back without a lost row or a shifted column. */
  lemma ExportReadsBack(contacts: seq<Contact>)
    ensures ExportShape(ReadTable(BuildContactsCsv(contacts)), contacts)
  {
    ReadBack(ExportTable(contacts));
    NoRowDropped(contacts);
    PrintedShape(contacts);
  }

  /** What the export promises under each of its fixed headers. */
  function BaseValue(c: Contact, header: string): Option<string> {
    if header == "full_name" then Some(c.fullName)
    else if header == "email" then Some(OrElse(c.email, ""))
    else if header == "phone" then Some(OrElse(c.phone, ""))
    else if header == "organization_name" then Some(OrElse(c.organizationName, ""))
    else if header == "job_title" then Some(OrElse(c.jobTitle, ""))
    else if header == "source" then Some(SourceText(c.source))
    else if header == "follow_up_status" then Some(c.followUpStatus)
    else if header == "tags" then Some(Join(c.tags, " | "))
    else if header == "card_slug" then Some(OrElse(c.cardSlug, ""))
    else if header == "message" then Some(OrElse(c.message, ""))
    else if header == "captured_at" then Some(c.capturedAt)
    else None
  }

  /** The fixed headers are there, each once, and each contact's value stands under its own. */
  lemma BaseValuesFound(table: Table, contacts: seq<Contact>)
    requires ExportShape(table, contacts)
    ensures forall header, contact :: BaseValue(contact, header).Some? <==> header in table[0][..11]
    ensures forall j, k | 0 <= j < k < 11 :: table[0][j] != table[0][k]
    ensures forall i, j | 0 <= i < |contacts| && 0 <= j < 11 ::
              BaseValue(contacts[i], table[0][j]).Some? && table[i + 1][j] == Guard(BaseValue(contacts[i], table[0][j]).value)
  {
    var keys := CustomKeys(contacts);
    HeadersStand(table[0], keys);
    forall header, contact ensures BaseValue(contact, header).Some? <==> header in table[0][..11] {
      BaseHeader(contact, header);
    }
    HeadersDiffer();
    forall i, j | 0 <= i < |contacts| && 0 <= j < 11
      ensures BaseValue(contacts[i], table[0][j]).Some? && table[i + 1][j] == Guard(BaseValue(contacts[i], table[0][j]).value)
    {
      assert table[0][j] == table[0][..11][j];
      BaseValueStands(table[i + 1], contacts[i], keys, j);
    }
  }

  lemma HeadersStand(row: Row, keys: seq<string>)
    requires row == GuardRow(Header(keys))
    ensures |row| >= 11 && row[..11] == BASE_COLUMNS
  {
    forall j | 0 <= j < 11 ensures row[j] == BASE_COLUMNS[j] {
      assert Header(keys)[j] == BASE_COLUMNS[j];
      PlainHeader(j);
    }
  }

  lemma PlainHeader(j: nat)
    requires j < 11
    ensures Guard(BASE_COLUMNS[j]) == BASE_COLUMNS[j]
  {
  }

  lemma BaseHeader(c: Contact, header: string)
    ensures BaseValue(c, header).Some? <==> header in BASE_COLUMNS
  {
    if BaseValue(c, header).Some? {
      assert exists j | 0 <= j < 11 :: BASE_COLUMNS[j] == header by {
        assert BASE_COLUMNS[0] == header || BASE_COLUMNS[1] == header || BASE_COLUMNS[2] == header || BASE_COLUMNS[3] == header
            || BASE_COLUMNS[4] == header || BASE_COLUMNS[5] == header || BASE_COLUMNS[6] == header || BASE_COLUMNS[7] == header
            || BASE_COLUMNS[8] == header || BASE_COLUMNS[9] == header || BASE_COLUMNS[10] == header;
      }
    }
  }

  lemma HeadersDiffer()
    ensures forall j, k | 0 <= j < k < 11 :: BASE_COLUMNS[j] != BASE_COLUMNS[k]
  {
    assert forall j | 0 <= j < 11 :: |BASE_COLUMNS[j]| == [9, 5, 5, 17, 9, 6, 16, 4, 9, 7, 11][j];
    assert forall j | 0 <= j < 11 :: BASE_COLUMNS[j][0] == "fepojsftcmc"[j];
  }

  lemma BaseValueStands(row: Row, c: Contact, keys: seq<string>, j: nat)
    requires row == GuardRow(ContactRow(c, keys)) && j < 11
    ensures BaseValue(c, BASE_COLUMNS[j]).Some? && row[j] == Guard(BaseValue(c, BASE_COLUMNS[j]).value)
  {
    BaseValueAt(c, keys, j);
  }

  lemma BaseValueAt(c: Contact, keys: seq<string>, j: nat)
    requires j < 11
    ensures BaseValue(c, BASE_COLUMNS[j]) == Some(ContactRow(c, keys)[j])
  {
  }

  /** A custom value is found again under its own key. */
  lemma CustomValueFound(table: Table, contacts: seq<Contact>, i: nat, f: nat) returns (j: nat)
    requires ExportShape(table, contacts)
    requires i < |contacts| && f < |contacts[i].customFields|
    requires forall g | 0 <= g < f :: contacts[i].customFields[g].key != contacts[i].customFields[f].key
    ensures var keys, field := CustomKeys(contacts), contacts[i].customFields[f];
            && j < |keys| && keys[j] == field.key
            && table[0][11 + j] == "custom_" + field.key && table[i + 1][11 + j] == Guard(field.value)
  {
    var keys, field := CustomKeys(contacts), contacts[i].customFields[f];
    assert HasField(contacts[i].customFields, field.key) && UsedKey(contacts, field.key);
    j :| 0 <= j < |keys| && keys[j] == field.key;
    LookupFirst(contacts[i].customFields, f);
    GuardCustom(field.key);
    var header, row := Header(keys), ContactRow(contacts[i], keys);
    assert header[11 + j] == "custom_" + keys[j] && row[11 + j] == field.value;
    assert table[0] == GuardRow(header) && table[0][11 + j] == Guard(header[11 + j]);
    assert table[i + 1] == GuardRow(row) && table[i + 1][11 + j] == Guard(row[11 + j]);
  }

  lemma GuardCustom(key: string)
    ensures Guard("custom_" + key) == "custom_" + key
  {
  }

  lemma {:induction false} LookupFirst(fields: seq<Field>, f: nat)
    requires f < |fields| && forall g | 0 <= g < f :: fields[g].key != fields[f].key
    ensures Lookup(fields, fields[f].key) == Some(fields[f].value)
  {
    if f > 0 {
      assert fields[0].key != fields[f].key;
      LookupFirst(fields[1..], f - 1);
    }
  }
}
