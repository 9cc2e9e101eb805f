/** What a card holds, what a published snapshot of it holds, and how the second is built from the first. */
module CardSnapshots {
  import opened Base
  import opened Text

  // ---- Stored rows ----

  /** The free-form JSON columns of a card. */
  datatype Json =
    | Null
    | Bool(flag: bool)
    | Number(number: int)
    | Str(text: string)
    | Arr(items: seq<Json>)
    | Obj(members: map<string, Json>)

  datatype Content = Content(fullName: string, jobTitle: Option<string>, organizationName: Option<string>,
                             department: Option<string>, bio: Option<string>, addressLine: Option<string>)

  datatype Link = Link(kind: string, platform: Option<string>, caption: Option<string>, captionEn: Option<string>,
                       value: string, position: int, isVisible: bool, isPrimary: bool)

  datatype LinkRow = LinkRow(id: string, link: Link)

  datatype Media = Media(avatar: Option<string>, cover: Option<string>, logo: Option<string>)

  /** The columns of the card row that an edit may change. */
  datatype Design = Design(templateKey: string, templateVersion: int, defaultLocale: string,
                           theme: Json, sectionOrder: Json, contactForm: Json, files: Media)

  /** Everything one revision number stands for: the row, its localizations by locale and its links by id. */
  datatype Body = Body(design: Design, contents: map<string, Content>, links: map<string, Link>)

  // ---- Lenient readers of the JSON columns ----

  const CARD_SECTIONS: set<string> := {"identity", "actions", "links", "documents"}
  const CONTACT_FORM_FIELDS: set<string> := {"email", "phone", "organizationName", "jobTitle", "message"}

  datatype Theme = Theme(primaryColor: Option<string>, borderRadius: Option<string>, colorScheme: Option<string>)

  datatype FormField = FormField(key: string, required: bool)
  datatype CustomField = CustomField(key: string, caption: string, captionEn: Option<string>, required: bool)
  datatype ContactForm = ContactForm(enabled: bool, fields: seq<FormField>, customFields: seq<CustomField>)

  const DEFAULT_CONTACT_FORM := ContactForm(false,
    [FormField("email", true), FormField("phone", false), FormField("organizationName", false), FormField("message", false)], [])

  function Member(j: Json, key: string): Json {
    if j.Obj? && key in j.members then j.members[key] else Null
  }

  function Items(j: Json): seq<Json> {
    if j.Arr? then j.items else []
  }

  predicate IsHex(c: char) {
    '0' <= c <= '9' || 'a' <= c <= 'f' || 'A' <= c <= 'F'
  }

  predicate IsColor(s: string) {
    |s| == 7 && s[0] == '#' && forall i | 1 <= i < 7 :: IsHex(s[i])
  }

  function TextIf(j: Json, accepted: string -> bool): Option<string> {
    if j.Str? && accepted(j.text) then Some(j.text) else None
  }

  function ParseTheme(j: Json): Theme {
    Theme(TextIf(Member(j, "primaryColor"), IsColor),
          TextIf(Member(j, "borderRadius"), s => s in {"small", "medium", "large"}),
          TextIf(Member(j, "colorScheme"), s => s in {"light", "dark", "system"}))
  }

  /** A stored list entry under the key that must not repeat. */
  datatype Keyed<T> = Keyed(key: string, value: T)

  function ReadSection(j: Json): Option<Keyed<string>> {
    if j.Str? && j.text in CARD_SECTIONS then Some(Keyed(j.text, j.text)) else None
  }

  function ReadField(j: Json): Option<Keyed<FormField>> {
    var key := Member(j, "key");
    if key.Str? && key.text in CONTACT_FORM_FIELDS
    then Some(Keyed(key.text, FormField(key.text, Member(j, "required") == Bool(true))))
    else None
  }

  function ReadCustomField(j: Json): Option<Keyed<CustomField>> {
    var key, caption := Member(j, "key"), Member(j, "label");
    if key.Str? && caption.Str?
    then Some(Keyed(key.text, CustomField(key.text, caption.text, TextIf(Member(j, "labelEn"), s => true),
                                          Member(j, "required") == Bool(true))))
    else None
  }

  /** The readable entries, in order. */
  function Readable<T>(items: seq<Json>, read: Json -> Option<Keyed<T>>): seq<Keyed<T>> {
    if items == [] then []
    else
      var entry := read(items[|items| - 1]);
      Readable(items[..|items| - 1], read) + if entry.Some? then [entry.value] else []
  }

  predicate HasKey<T>(entries: seq<Keyed<T>>, key: string) {
    exists i | 0 <= i < |entries| :: entries[i].key == key
  }

  /** Of the entries with the same key, the first. */
  function Firsts<T>(entries: seq<Keyed<T>>): seq<T> {
    if entries == [] then []
    else
      var n := |entries| - 1;
      Firsts(entries[..n]) + if HasKey(entries[..n], entries[n].key) then [] else [entries[n].value]
  }

  lemma ReadableStep<T>(items: seq<Json>, i: nat, read: Json -> Option<Keyed<T>>)
    requires i < |items|
    ensures Readable(items[..i + 1], read)
         == Readable(items[..i], read) + if read(items[i]).Some? then [read(items[i]).value] else []
  {
    assert items[..i + 1][..i] == items[..i];
  }

  lemma FirstsStep<T>(prior: seq<Keyed<T>>, entry: Keyed<T>)
    ensures Firsts(prior + [entry]) == Firsts(prior) + if HasKey(prior, entry.key) then [] else [entry.value]
    ensures forall key :: HasKey(prior + [entry], key) <==> HasKey(prior, key) || key == entry.key
  {
  }

  /** The readers' one pass with its set of keys seen so far. */
  method CollectFirsts<T>(items: seq<Json>, read: Json -> Option<Keyed<T>>) returns (kept: seq<T>)
    ensures kept == Firsts(Readable(items, read))
  {
    kept := [];
    var seen: set<string> := {};
    for i := 0 to |items|
      invariant kept == Firsts(Readable(items[..i], read))
      invariant forall key :: key in seen <==> HasKey(Readable(items[..i], read), key)
    {
      ghost var prior := Readable(items[..i], read);
      ReadableStep(items, i, read);
      var entry := read(items[i]);
      if entry.None? {
        assert Readable(items[..i + 1], read) == prior;
      } else {
        FirstsStep(prior, entry.value);
        assert Readable(items[..i + 1], read) == prior + [entry.value];
        if entry.value.key !in seen {
          seen := seen + {entry.value.key};
          kept := kept + [entry.value.value];
        }
      }
    }
    assert items[..|items|] == items;
  }

  function ParseSectionOrder(j: Json): seq<string> {
    Firsts(Readable(Items(j), ReadSection))
  }

  function ParseContactForm(j: Json): ContactForm {
    if !j.Obj? && !j.Arr? then DEFAULT_CONTACT_FORM
    else ContactForm(Member(j, "enabled") == Bool(true),
                     Firsts(Readable(Items(Member(j, "fields")), ReadField)),
                     Firsts(Readable(Items(Member(j, "customFields")), ReadCustomField)))
  }

  // ---- The snapshot ----

  datatype Snapshot = Snapshot(slug: string, templateKey: string, templateVersion: int, defaultLocale: string,
                               theme: Theme, sectionOrder: seq<string>, content: map<string, Content>,
                               links: seq<LinkRow>, media: Media, contactForm: ContactForm)

  function VisibleRows(rows: seq<LinkRow>): seq<LinkRow> {
    if rows == [] then []
    else (if rows[0].link.isVisible then [rows[0]] else []) + VisibleRows(rows[1..])
  }

  /** Stable insertion by position. */
  function Insert(row: LinkRow, sorted: seq<LinkRow>): seq<LinkRow> {
    if sorted == [] || row.link.position <= sorted[0].link.position then [row] + sorted
    else [sorted[0]] + Insert(row, sorted[1..])
  }

  function SortByPosition(rows: seq<LinkRow>): seq<LinkRow> {
    if rows == [] then [] else Insert(rows[0], SortByPosition(rows[1..]))
  }

  /** `rows` are the card's links in the order the database returned them, `urls` those of the media copies. */
  function BuildSnapshot(slug: string, design: Design, contents: map<string, Content>, rows: seq<LinkRow>, urls: Media): Snapshot {
    Snapshot(slug, design.templateKey, design.templateVersion, design.defaultLocale,
             ParseTheme(design.theme), ParseSectionOrder(design.sectionOrder), contents,
             SortByPosition(VisibleRows(rows)), urls, ParseContactForm(design.contactForm))
  }

  datatype Blocker = NameMissing | NoVisibleLink

  function PublishBlockers(s: Snapshot): seq<Blocker> {
    (if s.defaultLocale !in s.content || |Trim(s.content[s.defaultLocale].fullName)| < 2 then [NameMissing] else []) +
    (if s.links == [] then [NoVisibleLink] else [])
  }

  // ---- What a snapshot must be, said without saying how it is built ----

  ghost predicate Distinct(rows: seq<LinkRow>) {
    forall i, j | 0 <= i < j < |rows| :: rows[i].id != rows[j].id
  }

  predicate Sorted(rows: seq<LinkRow>) {
    forall i, j | 0 <= i < j < |rows| :: rows[i].link.position <= rows[j].link.position
  }

  /** `rows` lists the table once, in any order. */
  ghost predicate Lists(rows: seq<LinkRow>, table: map<string, Link>) {
    && Distinct(rows)
    && (forall r :: r in rows ==> r.id in table && table[r.id] == r.link)
    && (forall id :: id in table ==> LinkRow(id, table[id]) in rows)
  }

  /** `rows` lists exactly the visible links of the table once, by position. */
  ghost predicate ListsVisible(rows: seq<LinkRow>, table: map<string, Link>) {
    && Distinct(rows) && Sorted(rows)
    && (forall r :: r in rows ==> r.id in table && table[r.id] == r.link && r.link.isVisible)
    && (forall id :: id in table && table[id].isVisible ==> LinkRow(id, table[id]) in rows)
  }

  /** The snapshot shows exactly this body; where two links share a position their order is free. */
  ghost predicate Shows(s: Snapshot, slug: string, b: Body) {
    && s.slug == slug
    && s.templateKey == b.design.templateKey && s.templateVersion == b.design.templateVersion
    && s.defaultLocale == b.design.defaultLocale
    && s.theme == ParseTheme(b.design.theme)
    && s.sectionOrder == ParseSectionOrder(b.design.sectionOrder)
    && s.contactForm == ParseContactForm(b.design.contactForm)
    && s.content == b.contents
    && ListsVisible(s.links, b.links)
  }

  lemma {:induction false} VisibleMember(rows: seq<LinkRow>)
    requires Distinct(rows)
    ensures Distinct(VisibleRows(rows))
    ensures forall r :: r in VisibleRows(rows) <==> r in rows && r.link.isVisible
  {
    if rows != [] {
      assert forall i | 0 <= i < |rows[1..]| :: rows[1..][i] == rows[i + 1];
      VisibleMember(rows[1..]);
      var rest := VisibleRows(rows[1..]);
      forall i | 0 <= i < |rest| ensures rest[i].id != rows[0].id {
        assert rest[i] in rest;
      }
      assert forall r :: r in rows <==> r == rows[0] || r in rows[1..];
    }
  }

  lemma {:induction false} InsertKeeps(row: LinkRow, sorted: seq<LinkRow>)
    requires Sorted(sorted) && Distinct(sorted) && forall i | 0 <= i < |sorted| :: sorted[i].id != row.id
    ensures var r := Insert(row, sorted);
            Sorted(r) && Distinct(r) && forall x :: x in r <==> x == row || x in sorted
  {
    if sorted != [] && row.link.position > sorted[0].link.position {
      var rest := Insert(row, sorted[1..]);
      InsertKeeps(row, sorted[1..]);
      forall i | 0 <= i < |rest|
        ensures sorted[0].link.position <= rest[i].link.position && sorted[0].id != rest[i].id
      {
        assert rest[i] in rest;
      }
      assert forall x :: x in sorted <==> x == sorted[0] || x in sorted[1..];
    }
  }

  lemma {:induction false} SortKeeps(rows: seq<LinkRow>)
    requires Distinct(rows)
    ensures var r := SortByPosition(rows);
            Sorted(r) && Distinct(r) && forall x :: x in r <==> x in rows
  {
    if rows != [] {
      SortKeeps(rows[1..]);
      var rest := SortByPosition(rows[1..]);
      forall i | 0 <= i < |rest| ensures rest[i].id != rows[0].id {
        assert rest[i] in rest && rest[i] in rows[1..];
      }
      InsertKeeps(rows[0], rest);
      assert forall x :: x in rows <==> x == rows[0] || x in rows[1..];
    }
  }

  /** Filter, sort and map give what a snapshot must be, in whatever order the links were read. */
  lemma SnapshotShows(slug: string, b: Body, rows: seq<LinkRow>, urls: Media)
    requires Lists(rows, b.links)
    ensures Shows(BuildSnapshot(slug, b.design, b.contents, rows, urls), slug, b)
  {
    VisibleMember(rows);
    SortKeeps(VisibleRows(rows));
  }

  ghost predicate Ranked(rows: seq<LinkRow>) {
    forall i, j | 0 <= i < j < |rows| :: rows[i].link.position < rows[j].link.position
  }

  lemma HasElement<T>(s: seq<T>)
    ensures s == [] || exists x :: x in s
  {
    if s != [] {
      assert s[0] in s;
    }
  }

  lemma RankedLast(a: seq<LinkRow>)
    requires Ranked(a) && a != []
    ensures var n := |a| - 1;
            && a == a[..n] + [a[n]] && Ranked(a[..n]) && a[n] in a
            && (forall x :: x in a[..n] <==> x in a && x != a[n])
            && (forall x :: x in a ==> x == a[n] || x.link.position < a[n].link.position)
  {
  }

  lemma {:induction false} RankedUnique(a: seq<LinkRow>, b: seq<LinkRow>)
    requires Ranked(a) && Ranked(b) && forall x :: x in a <==> x in b
    ensures a == b
    decreases |a|
  {
    HasElement(a);
    HasElement(b);
    if a != [] {
      RankedLast(a);
      RankedLast(b);
      RankedUnique(a[..|a| - 1], b[..|b| - 1]);
    }
  }

  predicate PositionsDiffer(table: map<string, Link>) {
    forall x, y | x in table && y in table && x != y && table[x].isVisible && table[y].isVisible ::
      table[x].position != table[y].position
  }

  /** A body determines its snapshot up to the media URLs, and up to the order of links that share a position. */
  lemma SnapshotDetermined(s: Snapshot, t: Snapshot, slug: string, b: Body)
    requires Shows(s, slug, b) && Shows(t, slug, b)
    ensures s.(links := t.links, media := t.media) == t
    ensures forall r :: r in s.links <==> r in t.links
    ensures PositionsDiffer(b.links) ==> s.(media := t.media) == t
  {
    if PositionsDiffer(b.links) {
      VisibleRanked(s.links, b.links);
      VisibleRanked(t.links, b.links);
      RankedUnique(s.links, t.links);
    }
  }

  lemma VisibleRanked(rows: seq<LinkRow>, table: map<string, Link>)
    requires ListsVisible(rows, table) && PositionsDiffer(table)
    ensures Ranked(rows)
  {
  }

  /** What a visitor may rely on: a name in the default language, a way to get in touch, and no hidden link. */
  ghost predicate Presentable(s: Snapshot) {
    && s.defaultLocale in s.content && |Trim(s.content[s.defaultLocale].fullName)| >= 2
    && s.links != [] && forall r :: r in s.links ==> r.link.isVisible
  }

  lemma UnblockedIsPresentable(s: Snapshot, slug: string, b: Body)
    requires Shows(s, slug, b)
    ensures PublishBlockers(s) == [] <==> Presentable(s)
  {
  }

  // ---- Strict writing, lenient reading ----

  ghost predicate KeysDiffer<T>(entries: seq<Keyed<T>>) {
    forall i, j | 0 <= i < j < |entries| :: entries[i].key != entries[j].key
  }

  lemma {:induction false} FirstsOfDistinct<T>(entries: seq<Keyed<T>>)
    requires KeysDiffer(entries)
    ensures |Firsts(entries)| == |entries| && forall i | 0 <= i < |entries| :: Firsts(entries)[i] == entries[i].value
  {
    if entries != [] {
      var n := |entries| - 1;
      FirstsOfDistinct(entries[..n]);
      FirstsStep(entries[..n], entries[n]);
      assert entries == entries[..n] + [entries[n]];
      assert forall i | 0 <= i < n :: entries[..n][i].key != entries[n].key;
    }
  }

  lemma {:induction false} ReadableAll<T>(items: seq<Json>, read: Json -> Option<Keyed<T>>)
    requires forall i | 0 <= i < |items| :: read(items[i]).Some?
    ensures |Readable(items, read)| == |items|
    ensures forall i | 0 <= i < |items| :: Readable(items, read)[i] == read(items[i]).value
  {
    if items != [] {
      ReadableAll(items[..|items| - 1], read);
    }
  }

  /** The field of a stored theme, if it is an accepted text. */
  predicate Themed(j: Json, key: string, accepted: string -> bool, value: Option<string>) {
    match value
    case Some(text) => j.Obj? && key in j.members && j.members[key] == Str(text) && accepted(text)
    case None => j.Obj? && key in j.members && j.members[key].Str? ==> !accepted(j.members[key].text)
  }

  /** A theme is read exactly as far as it is well formed: each field on its own, a colour only as `#` and six hexadecimal digits. */
  lemma ThemeReadExactly(j: Json)
    ensures var theme := ParseTheme(j);
            && Themed(j, "primaryColor", s => |s| == 7 && s[0] == '#' && forall i | 1 <= i < 7 :: IsHex(s[i]), theme.primaryColor)
            && Themed(j, "borderRadius", s => s in {"small", "medium", "large"}, theme.borderRadius)
            && Themed(j, "colorScheme", s => s in {"light", "dark", "system"}, theme.colorScheme)
  {
  }

  function StoreTheme(theme: Theme): Json {
    var color := if theme.primaryColor.Some? then map["primaryColor" := Str(theme.primaryColor.value)] else map[];
    var radius := if theme.borderRadius.Some? then map["borderRadius" := Str(theme.borderRadius.value)] else map[];
    var scheme := if theme.colorScheme.Some? then map["colorScheme" := Str(theme.colorScheme.value)] else map[];
    Obj(color + radius + scheme)
  }

  /** A well-formed theme is read back from its column as it was written. */
  lemma ThemeReadsBack(theme: Theme)
    requires theme.primaryColor.Some? ==> IsColor(theme.primaryColor.value)
    requires theme.borderRadius.Some? ==> theme.borderRadius.value in {"small", "medium", "large"}
    requires theme.colorScheme.Some? ==> theme.colorScheme.value in {"light", "dark", "system"}
    ensures ParseTheme(StoreTheme(theme)) == theme
  {
    var stored := StoreTheme(theme).members;
    assert "primaryColor" in stored <==> theme.primaryColor.Some?;
    assert "borderRadius" in stored <==> theme.borderRadius.Some?;
    assert "colorScheme" in stored <==> theme.colorScheme.Some?;
  }

  function StoreSections(order: seq<string>): Json {
    Arr(seq(|order|, i requires 0 <= i < |order| => Str(order[i])))
  }

  /** A section order the write schema accepts is read back as it was written. */
  lemma SectionsReadBack(order: seq<string>)
    requires forall i | 0 <= i < |order| :: order[i] in CARD_SECTIONS
    requires forall i, j | 0 <= i < j < |order| :: order[i] != order[j]
    ensures ParseSectionOrder(StoreSections(order)) == order
  {
    var items := Items(StoreSections(order));
    ReadableAll(items, ReadSection);
    FirstsOfDistinct(Readable(items, ReadSection));
  }

  function StoreForm(form: ContactForm): Json {
    Obj(map["enabled" := Bool(form.enabled),
            "fields" := Arr(StoreFields(form.fields)), "customFields" := Arr(StoreCustoms(form.customFields))])
  }

  function StoreFields(fields: seq<FormField>): seq<Json> {
    seq(|fields|, i requires 0 <= i < |fields| => StoreField(fields[i]))
  }

  function StoreCustoms(fields: seq<CustomField>): seq<Json> {
    seq(|fields|, i requires 0 <= i < |fields| => StoreCustom(fields[i]))
  }

  function StoreField(field: FormField): Json {
    Obj(map["key" := Str(field.key), "required" := Bool(field.required)])
  }

  function StoreCustom(field: CustomField): Json {
    Obj(map["key" := Str(field.key), "label" := Str(field.caption), "required" := Bool(field.required),
            "labelEn" := if field.captionEn.Some? then Str(field.captionEn.value) else Null])
  }

  lemma FieldReadsBack(field: FormField)
    requires field.key in CONTACT_FORM_FIELDS
    ensures ReadField(StoreField(field)) == Some(Keyed(field.key, field))
  {
  }

  lemma CustomFieldReadsBack(field: CustomField)
    ensures ReadCustomField(StoreCustom(field)) == Some(Keyed(field.key, field))
  {
  }

  lemma {:induction false} EntriesReadBack<T>(stored: seq<Json>, read: Json -> Option<Keyed<T>>, values: seq<T>, keys: seq<string>)
    requires |stored| == |values| == |keys|
    requires forall i | 0 <= i < |stored| :: read(stored[i]) == Some(Keyed(keys[i], values[i]))
    requires forall i, j | 0 <= i < j < |keys| :: keys[i] != keys[j]
    ensures Firsts(Readable(stored, read)) == values
  {
    ReadableAll(stored, read);
    FirstsOfDistinct(Readable(stored, read));
  }

  lemma StoredFields(form: ContactForm)
    requires forall i | 0 <= i < |form.fields| :: form.fields[i].key in CONTACT_FORM_FIELDS
    requires forall i, j | 0 <= i < j < |form.fields| :: form.fields[i].key != form.fields[j].key
    ensures Firsts(Readable(Items(Member(StoreForm(form), "fields")), ReadField)) == form.fields
  {
    var stored := Items(Member(StoreForm(form), "fields"));
    assert |stored| == |form.fields|;
    forall i | 0 <= i < |stored| ensures ReadField(stored[i]) == Some(Keyed(form.fields[i].key, form.fields[i])) {
      FieldReadsBack(form.fields[i]);
    }
    var keys := seq(|stored|, i requires 0 <= i < |stored| => form.fields[i].key);
    EntriesReadBack(stored, ReadField, form.fields, keys);
  }

  lemma StoredCustomFields(form: ContactForm)
    requires forall i, j | 0 <= i < j < |form.customFields| :: form.customFields[i].key != form.customFields[j].key
    ensures Firsts(Readable(Items(Member(StoreForm(form), "customFields")), ReadCustomField)) == form.customFields
  {
    var stored, fields := Items(Member(StoreForm(form), "customFields")), form.customFields;
    assert |stored| == |fields|;
    forall i | 0 <= i < |stored| ensures ReadCustomField(stored[i]) == Some(Keyed(fields[i].key, fields[i])) {
      CustomFieldReadsBack(fields[i]);
    }
    var keys := seq(|stored|, i requires 0 <= i < |stored| => fields[i].key);
    EntriesReadBack(stored, ReadCustomField, fields, keys);
  }

  lemma StoredFlag(form: ContactForm)
    ensures Member(StoreForm(form), "enabled") == Bool(form.enabled)
  {
  }

  /** A contact form with known, unrepeated fields is read back as it was written. */
  lemma ContactFormReadsBack(form: ContactForm)
    requires forall i | 0 <= i < |form.fields| :: form.fields[i].key in CONTACT_FORM_FIELDS
    requires forall i, j | 0 <= i < j < |form.fields| :: form.fields[i].key != form.fields[j].key
    requires forall i, j | 0 <= i < j < |form.customFields| :: form.customFields[i].key != form.customFields[j].key
    ensures ParseContactForm(StoreForm(form)) == form
  {
    StoredFields(form);
    StoredCustomFields(form);
    StoredFlag(form);
  }

  /** Whatever the column holds, the section order read from it has known, unrepeated sections. */
  lemma SectionsWellFormed(j: Json)
    ensures var order := ParseSectionOrder(j);
            && (forall s :: s in order ==> s in CARD_SECTIONS)
            && (forall a, b | 0 <= a < b < |order| :: order[a] != order[b])
  {
    FirstsOfSections(Items(j));
    assert ParseSectionOrder(j) == Firsts(Readable(Items(j), ReadSection));
  }

  lemma {:induction false} FirstsOfSections(items: seq<Json>)
    ensures var entries := Readable(items, ReadSection);
            var order := Firsts(entries);
            && (forall s | s in order :: HasKey(entries, s) && s in CARD_SECTIONS)
            && (forall a, b | 0 <= a < b < |order| :: order[a] != order[b])
  {
    if items != [] {
      var prior := items[..|items| - 1];
      FirstsOfSections(prior);
      var entries, entry := Readable(prior, ReadSection), ReadSection(items[|items| - 1]);
      if entry.Some? {
        FirstsStep(entries, entry.value);
        assert Readable(items, ReadSection) == entries + [entry.value];
        assert forall a | 0 <= a < |Firsts(entries)| :: Firsts(entries)[a] in Firsts(entries);
      } else {
        assert Readable(items, ReadSection) == entries;
      }
    }
  }
}
