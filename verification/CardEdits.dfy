/** What each part of a card holds at each revision, in terms of the edits that were committed. */
module CardEdits {
  import opened Base
  import opened CardSnapshots
  import opened CardTables
  import opened CardProtocol
  import opened CardSafety

  datatype Column =
    | TemplateKey | TemplateVersion | DefaultLocale | Theme | SectionOrder | ContactForm | AvatarFile | CoverFile | LogoFile

  datatype Value = Word(word: string) | Version(version: int) | Document(json: Json) | File(id: Option<string>)

  function Held(d: Design, column: Column): Value {
    match column
    case TemplateKey => Word(d.templateKey)
    case TemplateVersion => Version(d.templateVersion)
    case DefaultLocale => Word(d.defaultLocale)
    case Theme => Document(d.theme)
    case SectionOrder => Document(d.sectionOrder)
    case ContactForm => Document(d.contactForm)
    case AvatarFile => File(d.files.avatar)
    case CoverFile => File(d.files.cover)
    case LogoFile => File(d.files.logo)
  }

  function Mapped<T, U>(value: Option<T>, f: T -> U): Option<U> {
    if value.Some? then Some(f(value.value)) else None
  }

  /** What a committed edit sent for the column; a template's version comes with a change of template. */
  function Sent(k: Commit, column: Column): Option<Value> {
    match column
    case TemplateKey => Mapped(k.input.templateKey, (word: string) => Word(word))
    case TemplateVersion => Mapped(k.template, (template: Template) => Version(template.latestVersion))
    case DefaultLocale => Mapped(k.input.defaultLocale, (word: string) => Word(word))
    case Theme => Mapped(k.input.theme, (json: Json) => Document(json))
    case SectionOrder => Mapped(k.input.sectionOrder, (json: Json) => Document(json))
    case ContactForm => Mapped(k.input.contactForm, (json: Json) => Document(json))
    case AvatarFile => Mapped(k.input.avatar, (id: Option<string>) => File(id))
    case CoverFile => Mapped(k.input.cover, (id: Option<string>) => File(id))
    case LogoFile => Mapped(k.input.logo, (id: Option<string>) => File(id))
  }

  lemma CommitWrites(s: State, i: nat, column: Column)
    requires History(s) && i < |s.commits|
    ensures Wrote(Sent(s.commits[i], column), Held(s.versions[i].design, column), Held(s.versions[i + 1].design, column))
  {
    assert CommitLinks(s, i);
  }

  /** Of the commits before revision `r`, commit `i` is the last for which `sent` holds. */
  predicate IsLast(sent: seq<bool>, r: nat, i: nat) {
    i < r - 1 && r - 1 <= |sent| && sent[i] && forall j | i < j < r - 1 :: !sent[j]
  }

  predicate NoneBefore(sent: seq<bool>, r: nat) {
    1 <= r && r - 1 <= |sent| && forall j | 0 <= j < r - 1 :: !sent[j]
  }

  function Sending(commits: seq<Commit>, column: Column): seq<bool> {
    seq(|commits|, i requires 0 <= i < |commits| => Sent(commits[i], column).Some?)
  }

  function SendingContent(commits: seq<Commit>): seq<bool> {
    seq(|commits|, i requires 0 <= i < |commits| => commits[i].input.content.Some?)
  }

  function SendingLinks(commits: seq<Commit>): seq<bool> {
    seq(|commits|, i requires 0 <= i < |commits| => commits[i].input.links.Some?)
  }

  lemma {:induction false} ColumnKept(s: State, a: nat, b: nat, column: Column)
    requires History(s) && a <= b < |s.versions| && forall j | a <= j < b :: Sent(s.commits[j], column).None?
    ensures Held(s.versions[b].design, column) == Held(s.versions[a].design, column)
  {
    if a < b {
      ColumnKept(s, a, b - 1, column);
      CommitWrites(s, b - 1, column);
    }
  }

  lemma ColumnAt(s: State, r: nat, column: Column)
    requires History(s) && 1 <= r <= |s.versions|
    ensures var sent, held := Sending(s.commits, column), Held(s.versions[r - 1].design, column);
            && (forall i: nat | IsLast(sent, r, i) :: Sent(s.commits[i], column) == Some(held))
            && (NoneBefore(sent, r) ==> held == Held(s.versions[0].design, column))
  {
    var sent := Sending(s.commits, column);
    forall i: nat | IsLast(sent, r, i) ensures Sent(s.commits[i], column) == Some(Held(s.versions[r - 1].design, column)) {
      CommitWrites(s, i, column);
      forall j | i + 1 <= j < r - 1 ensures Sent(s.commits[j], column).None? {
        assert !sent[j];
      }
      ColumnKept(s, i + 1, r - 1, column);
    }
    if NoneBefore(sent, r) {
      assert forall j | 0 <= j < r - 1 :: !sent[j];
      ColumnKept(s, 0, r - 1, column);
    }
  }

  lemma {:induction false} ContentsKept(s: State, a: nat, b: nat)
    requires History(s) && a <= b < |s.versions| && forall j | a <= j < b :: s.commits[j].input.content.None?
    ensures s.versions[b].contents == s.versions[a].contents
  {
    if a < b {
      ContentsKept(s, a, b - 1);
      assert CommitLinks(s, b - 1);
    }
  }

  lemma {:induction false} LinksKept(s: State, a: nat, b: nat)
    requires History(s) && a <= b < |s.versions| && forall j | a <= j < b :: s.commits[j].input.links.None?
    ensures s.versions[b].links == s.versions[a].links
  {
    if a < b {
      LinksKept(s, a, b - 1);
      assert CommitLinks(s, b - 1);
    }
  }

  lemma ContentsAfter(s: State, i: nat)
    requires History(s) && i < |s.commits| && s.commits[i].input.content.Some?
    ensures HoldsEntries(s.versions[i + 1].contents, s.commits[i].input.content.value)
  {
    assert CommitLinks(s, i);
    EntriesHeld(s.commits[i].input.content.value);
  }

  lemma LinksAfter(s: State, i: nat)
    requires History(s) && i < |s.commits| && s.commits[i].input.links.Some?
    ensures var k := s.commits[i];
            |k.ids| == |k.input.links.value| && Replaces(s.versions[i + 1].links, k.input.links.value, k.ids)
  {
    assert CommitLinks(s, i);
    LinksReplacedInFull(s.versions[i].links, s.commits[i].input.links.value, s.commits[i].ids);
  }

  lemma ContentsAt(s: State, r: nat)
    requires History(s) && 1 <= r <= |s.versions|
    ensures var sent, held := SendingContent(s.commits), s.versions[r - 1].contents;
            && (forall i: nat | IsLast(sent, r, i) :: HoldsEntries(held, s.commits[i].input.content.value))
            && (NoneBefore(sent, r) ==> held == s.versions[0].contents)
  {
    var sent := SendingContent(s.commits);
    forall i: nat | IsLast(sent, r, i) ensures HoldsEntries(s.versions[r - 1].contents, s.commits[i].input.content.value) {
      ContentsAfter(s, i);
      forall j | i + 1 <= j < r - 1 ensures s.commits[j].input.content.None? {
        assert !sent[j];
      }
      ContentsKept(s, i + 1, r - 1);
    }
    if NoneBefore(sent, r) {
      assert forall j | 0 <= j < r - 1 :: !sent[j];
      ContentsKept(s, 0, r - 1);
    }
  }

  lemma LinksAt(s: State, r: nat)
    requires History(s) && 1 <= r <= |s.versions|
    ensures var sent, held := SendingLinks(s.commits), s.versions[r - 1].links;
            && (forall i: nat | IsLast(sent, r, i) ::
                  |s.commits[i].ids| == |s.commits[i].input.links.value| && Replaces(held, s.commits[i].input.links.value, s.commits[i].ids))
            && (NoneBefore(sent, r) ==> held == s.versions[0].links)
  {
    var sent := SendingLinks(s.commits);
    forall i: nat | IsLast(sent, r, i)
      ensures |s.commits[i].ids| == |s.commits[i].input.links.value|
      ensures Replaces(s.versions[r - 1].links, s.commits[i].input.links.value, s.commits[i].ids)
    {
      LinksAfter(s, i);
      forall j | i + 1 <= j < r - 1 ensures s.commits[j].input.links.None? {
        assert !sent[j];
      }
      LinksKept(s, i + 1, r - 1);
    }
    if NoneBefore(sent, r) {
      assert forall j | 0 <= j < r - 1 :: !sent[j];
      LinksKept(s, 0, r - 1);
    }
  }

  /**
   * However edits, reviews and publications interleave: at every revision each column has the value of
   * the last committed edit that sent one, and of the first version if none did.
   */
  lemma ColumnsAreLastSent(s: State, steps: seq<(nat, Step)>, r: nat, column: Column)
    requires Inv(s) && 1 <= r <= |Run(s, steps).versions|
    ensures var now := Run(s, steps);
            var sent, held := Sending(now.commits, column), Held(now.versions[r - 1].design, column);
            && |now.versions| == |now.commits| + 1
            && (forall i: nat | IsLast(sent, r, i) :: Sent(now.commits[i], column) == Some(held))
            && (NoneBefore(sent, r) ==> held == Held(now.versions[0].design, column))
  {
    RunInv(s, steps);
    ColumnAt(Run(s, steps), r, column);
  }

  /** So do its contents, language by language, and its links, id by id. */
  lemma ChildrenAreLastSent(s: State, steps: seq<(nat, Step)>, r: nat)
    requires Inv(s) && 1 <= r <= |Run(s, steps).versions|
    ensures var now := Run(s, steps);
            var b := now.versions[r - 1];
            && (forall i: nat | IsLast(SendingContent(now.commits), r, i) :: HoldsEntries(b.contents, now.commits[i].input.content.value))
            && (NoneBefore(SendingContent(now.commits), r) ==> b.contents == now.versions[0].contents)
            && (forall i: nat | IsLast(SendingLinks(now.commits), r, i) ::
                  |now.commits[i].ids| == |now.commits[i].input.links.value| &&
                  Replaces(b.links, now.commits[i].input.links.value, now.commits[i].ids))
            && (NoneBefore(SendingLinks(now.commits), r) ==> b.links == now.versions[0].links)
  {
    RunInv(s, steps);
    ContentsAt(Run(s, steps), r);
    LinksAt(Run(s, steps), r);
  }
}
