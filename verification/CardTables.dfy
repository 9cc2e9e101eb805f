/** One card's rows and the transactions that change them. */
module CardTables {
  import opened Base
  import opened CardSnapshots

  datatype Status = Draft | Published | Unpublished

  datatype ContentEntry = ContentEntry(locale: string, content: Content)

  /** A link of an edit: with an id it replaces that link, without one it is new. */
  datatype LinkInput = LinkInput(id: Option<string>, link: Link)

  /** An edit; `None` leaves a column alone, and content and links are full replacements. */
  datatype UpdateInput = UpdateInput(revision: int, templateKey: Option<string>, defaultLocale: Option<string>,
                                     theme: Option<Json>, sectionOrder: Option<Json>, contactForm: Option<Json>,
                                     avatar: Option<Option<string>>, cover: Option<Option<string>>, logo: Option<Option<string>>,
                                     content: Option<seq<ContentEntry>>, links: Option<seq<LinkInput>>)

  datatype Template = Template(key: string, latestVersion: int)

  datatype Publication = Publication(revision: int, templateKey: string, templateVersion: int, snapshot: Snapshot, publishedBy: string)

  datatype RequestStatus = Pending | Approved | Rejected | Withdrawn | Stale

  datatype Request = Request(requestedBy: string, payload: UpdateInput, baseRevision: int, status: RequestStatus)

  datatype Tables = Tables(slug: string, owner: string, status: Status, publishedAt: Option<int>, deleted: bool,
                           revision: int, body: Body, publications: seq<Publication>, requests: map<string, Request>)

  datatype UpdateError = Conflict | UnknownLink

  // ---- What an edit does to the body ----

  function NewDesign(d: Design, input: UpdateInput, template: Option<Template>): Design {
    Design(if template.Some? then template.value.key else d.templateKey,
           if template.Some? then template.value.latestVersion else d.templateVersion,
           OrElse(input.defaultLocale, d.defaultLocale), OrElse(input.theme, d.theme),
           OrElse(input.sectionOrder, d.sectionOrder), OrElse(input.contactForm, d.contactForm),
           Media(OrElse(input.avatar, d.files.avatar), OrElse(input.cover, d.files.cover), OrElse(input.logo, d.files.logo)))
  }

  function ContentsOf(entries: seq<ContentEntry>): map<string, Content> {
    if entries == [] then map[]
    else
      var last := entries[|entries| - 1];
      ContentsOf(entries[..|entries| - 1])[last.locale := last.content]
  }

  function Locales(entries: seq<ContentEntry>): set<string> {
    set i | 0 <= i < |entries| :: entries[i].locale
  }

  function KeptIds(inputs: seq<LinkInput>): set<string> {
    set i | 0 <= i < |inputs| && inputs[i].id.Some? :: inputs[i].id.value
  }

  /** The links an edit names by id; all others are deleted first. */
  function Kept(links: map<string, Link>, inputs: seq<LinkInput>): map<string, Link> {
    map id | id in links && id in KeptIds(inputs) :: links[id]
  }

  /** `ids[k]` is the id the database would give the k-th link if it is new. */
  function PutLinks(links: map<string, Link>, inputs: seq<LinkInput>, ids: seq<string>): Option<map<string, Link>>
    requires |ids| == |inputs|
  {
    if inputs == [] then Some(links)
    else
      var n := |inputs| - 1;
      var prior := PutLinks(links, inputs[..n], ids[..n]);
      if prior.None? then None
      else if inputs[n].id.None? then Some(prior.value[ids[n] := inputs[n].link])
      else if inputs[n].id.value in prior.value then Some(prior.value[inputs[n].id.value := inputs[n].link])
      else None
  }

  predicate IdsMatch(input: UpdateInput, ids: seq<string>) {
    input.links.Some? ==> |ids| == |input.links.value|
  }

  /** The body after an edit, or nothing when it names a link the card does not have. */
  function UpdatedBody(b: Body, input: UpdateInput, template: Option<Template>, ids: seq<string>): Option<Body>
    requires IdsMatch(input, ids)
  {
    var contents := if input.content.Some? then ContentsOf(input.content.value) else b.contents;
    var links := if input.links.Some? then PutLinks(Kept(b.links, input.links.value), input.links.value, ids) else Some(b.links);
    if links.None? then None else Some(Body(NewDesign(b.design, input, template), contents, links.value))
  }

  // ---- The transactions as functions ----

  function CommitUpdate(t: Tables, input: UpdateInput, template: Option<Template>, ids: seq<string>)
    : (Tables, Result<(), UpdateError>)
    requires IdsMatch(input, ids)
  {
    if t.deleted || t.revision != input.revision then (t, Err(Conflict))
    else
      var body := UpdatedBody(t.body, input, template, ids);
      if body.None? then (t, Err(UnknownLink))
      else (t.(body := body.value, revision := t.revision + 1), Ok(()))
  }

  function CommitPublication(t: Tables, p: Publication, now: int): (Tables, bool) {
    if t.deleted || t.revision != p.revision then (t, false)
    else (t.(status := Published, publishedAt := Some(now), publications := t.publications + [p]), true)
  }

  function SetUnpublished(t: Tables): Tables {
    if t.deleted then t else t.(status := Unpublished)
  }

  function SetDeleted(t: Tables): Tables {
    if t.deleted then t else t.(deleted := true, status := Unpublished)
  }

  function Offboarded(t: Tables, user: string, unpublish: bool, heir: Option<string>): Tables {
    var t' := if unpublish && t.owner == user && t.status == Published
              then t.(status := Unpublished, publishedAt := None) else t;
    if heir.Some? && t'.owner == user && !t'.deleted then t'.(owner := heir.value) else t'
  }

  function WithdrawPending(requests: map<string, Request>, user: string): map<string, Request> {
    map id | id in requests ::
      if requests[id].requestedBy == user && requests[id].status == Pending
      then requests[id].(status := Withdrawn) else requests[id]
  }

  function Submitted(t: Tables, id: string, user: string, payload: UpdateInput, baseRevision: int): Tables {
    t.(requests := WithdrawPending(t.requests, user)[id := Request(user, payload, baseRevision, Pending)])
  }

  function WithdrawnBy(t: Tables, id: string, user: string): (Tables, bool) {
    if id in t.requests && t.requests[id].requestedBy == user && t.requests[id].status == Pending
    then (t.(requests := t.requests[id := t.requests[id].(status := Withdrawn)]), true)
    else (t, false)
  }

  function Finished(t: Tables, id: string, status: RequestStatus): Tables
    requires id in t.requests
  {
    t.(requests := t.requests[id := t.requests[id].(status := status)])
  }

  // ---- What an edit leaves in each column ----

  /** The column holds the value that was sent, or its old one if none was. */
  predicate Wrote<T(==)>(sent: Option<T>, before: T, after: T) {
    match sent
    case Some(value) => after == value
    case None => after == before
  }

  predicate HasLocale(entries: seq<ContentEntry>, locale: string) {
    exists k | 0 <= k < |entries| :: entries[k].locale == locale
  }

  predicate LastForLocale(entries: seq<ContentEntry>, k: nat)
    requires k < |entries|
  {
    forall l | k < l < |entries| :: entries[l].locale != entries[k].locale
  }

  /** For each language that was sent, the last content sent for it; no other language. */
  ghost predicate HoldsEntries(r: map<string, Content>, entries: seq<ContentEntry>) {
    && (forall locale :: locale in r <==> HasLocale(entries, locale))
    && (forall k: nat | k < |entries| && LastForLocale(entries, k) ::
          entries[k].locale in r && r[entries[k].locale] == entries[k].content)
  }

  lemma HasLocaleStep(entries: seq<ContentEntry>, locale: string)
    requires entries != []
    ensures var n := |entries| - 1;
            HasLocale(entries, locale) <==> HasLocale(entries[..n], locale) || entries[n].locale == locale
  {
    var n := |entries| - 1;
    if HasLocale(entries[..n], locale) {
      var k :| 0 <= k < n && entries[..n][k].locale == locale;
      assert entries[k].locale == locale;
    }
    if HasLocale(entries, locale) && entries[n].locale != locale {
      var k :| 0 <= k < |entries| && entries[k].locale == locale;
      assert entries[..n][k].locale == locale;
    }
  }

  lemma {:induction false} EntriesKeys(entries: seq<ContentEntry>, locale: string)
    ensures locale in ContentsOf(entries) <==> HasLocale(entries, locale)
  {
    if entries != [] {
      EntriesKeys(entries[..|entries| - 1], locale);
      HasLocaleStep(entries, locale);
    }
  }

  lemma {:induction false} EntriesValue(entries: seq<ContentEntry>, k: nat)
    requires k < |entries| && LastForLocale(entries, k)
    ensures entries[k].locale in ContentsOf(entries) && ContentsOf(entries)[entries[k].locale] == entries[k].content
    decreases |entries|
  {
    var n := |entries| - 1;
    if k < n {
      assert forall l | 0 <= l < n :: entries[..n][l] == entries[l];
      EntriesValue(entries[..n], k);
      assert entries[n].locale != entries[k].locale;
    }
  }

  lemma EntriesHeld(entries: seq<ContentEntry>)
    ensures HoldsEntries(ContentsOf(entries), entries)
  {
    forall locale ensures locale in ContentsOf(entries) <==> HasLocale(entries, locale) {
      EntriesKeys(entries, locale);
    }
    forall k: nat | k < |entries| && LastForLocale(entries, k)
      ensures entries[k].locale in ContentsOf(entries) && ContentsOf(entries)[entries[k].locale] == entries[k].content
    {
      EntriesValue(entries, k);
    }
  }

  // ---- What the rows keep between transactions ----

  /** What the public page serves. */
  function PublicPage(t: Tables): Option<Snapshot> {
    if t.status == Published && !t.deleted && t.publications != []
    then Some(t.publications[|t.publications| - 1].snapshot)
    else None
  }

  predicate Ordered(publications: seq<Publication>) {
    forall i, j | 0 <= i < j < |publications| :: publications[i].revision <= publications[j].revision
  }

  ghost predicate OnePending(requests: map<string, Request>) {
    forall a, b | a in requests && b in requests && a != b &&
      requests[a].status == Pending && requests[b].status == Pending :: requests[a].requestedBy != requests[b].requestedBy
  }

  /** The page is up exactly while the card is published; publications follow the revision; nobody has two requests pending. */
  ghost predicate Sound(t: Tables) {
    && (PublicPage(t).Some? <==> t.status == Published)
    && Ordered(t.publications)
    && (forall i | 0 <= i < |t.publications| :: t.publications[i].revision <= t.revision)
    && OnePending(t.requests)
  }

  /** Body, revision and publications are the same. */
  predicate SameCard(t: Tables, t': Tables) {
    t'.body == t.body && t'.revision == t.revision && t'.publications == t.publications
  }

  /** Requests stay with their requester, payload and base; one that changed was the user's, was pending, and is withdrawn. */
  predicate OnlyWithdrawn(requests: map<string, Request>, requests': map<string, Request>, user: string) {
    forall id | id in requests :: id in requests' &&
      (requests'[id] == requests[id] ||
       (requests[id].requestedBy == user && requests[id].status == Pending && requests'[id] == requests[id].(status := Withdrawn)))
  }

  predicate HasPending(requests: map<string, Request>, user: string) {
    exists id | id in requests :: requests[id].requestedBy == user && requests[id].status == Pending
  }

  // ---- The transactions as the services run them ----

  class CardStore {
    const slug: string
    var ownerUserId: string
    var status: Status
    var publishedAt: Option<int>
    var deleted: bool
    var revision: int
    var templateKey: string
    var templateVersion: int
    var defaultLocale: string
    var theme: Json
    var sectionOrder: Json
    var contactForm: Json
    var avatarFileId: Option<string>
    var coverFileId: Option<string>
    var logoFileId: Option<string>
    var contents: map<string, Content>
    var links: map<string, Link>
    var publications: seq<Publication>
    var requests: map<string, Request>

    function View(): Tables
      reads this
    {
      Tables(slug, ownerUserId, status, publishedAt, deleted, revision,
             Body(StoredDesign(), contents, links), publications, requests)
    }

    constructor (slug: string, owner: string, template: Template, defaultLocale: string, fullName: string)
      ensures View() == NewCard(slug, owner, template, defaultLocale, fullName)
      ensures Sound(View()) && PublicPage(View()).None?
      ensures status == Draft && !deleted && revision == 1 && ownerUserId == owner && this.slug == slug
      ensures templateKey == template.key && templateVersion == template.latestVersion && this.defaultLocale == defaultLocale
      ensures contents.Keys == {defaultLocale} && contents[defaultLocale].fullName == fullName
      ensures links == map[] && publications == [] && requests == map[]
    {
      this.slug, ownerUserId, status, publishedAt, deleted, revision := slug, owner, Draft, None, false, 1;
      templateKey, templateVersion, this.defaultLocale := template.key, template.latestVersion, defaultLocale;
      theme, sectionOrder, contactForm := Null, Null, Null;
      avatarFileId, coverFileId, logoFileId := None, None, None;
      contents := map[defaultLocale := Content(fullName, None, None, None, None, None)];
      links, publications, requests := map[], [], map[];
    }

    /** The child rows are rewritten on copies and stored at the end, so a refusal leaves every row as it was. */
    method Update(input: UpdateInput, template: Option<Template>, ids: seq<string>)
      returns (r: Result<(), UpdateError>)
      requires IdsMatch(input, ids)
      modifies this
      ensures (View(), r) == CommitUpdate(old(View()), input, template, ids)
      ensures old(Sound(View())) ==> Sound(View())
      ensures PublicPage(View()) == old(PublicPage(View()))
      ensures revision == old(revision) + (if r.Ok? then 1 else 0)
      ensures r.Err? ==> View() == old(View())
      ensures r.Ok? ==> Wrote(if template.Some? then Some(template.value.key) else None, old(templateKey), templateKey)
      ensures r.Ok? ==> Wrote(if template.Some? then Some(template.value.latestVersion) else None, old(templateVersion), templateVersion)
      ensures r.Ok? ==> Wrote(input.defaultLocale, old(defaultLocale), defaultLocale)
      ensures r.Ok? ==> Wrote(input.theme, old(theme), theme)
      ensures r.Ok? ==> Wrote(input.sectionOrder, old(sectionOrder), sectionOrder)
      ensures r.Ok? ==> Wrote(input.contactForm, old(contactForm), contactForm)
      ensures r.Ok? ==> Wrote(input.avatar, old(avatarFileId), avatarFileId)
      ensures r.Ok? ==> Wrote(input.cover, old(coverFileId), coverFileId)
      ensures r.Ok? ==> Wrote(input.logo, old(logoFileId), logoFileId)
      ensures r.Ok? ==> if input.content.Some? then HoldsEntries(contents, input.content.value) else contents == old(contents)
      ensures r.Ok? && input.links.None? ==> links == old(links)
      ensures r.Ok? && input.links.Some? && FreshIds(old(links), input.links.value, ids) ==> Replaces(links, input.links.value, ids)
    {
      if deleted || revision != input.revision {
        return Err(Conflict);
      }
      var newContents, newLinks := RewriteChildren(contents, links, input, ids);
      if newLinks.None? {
        return Err(UnknownLink);
      }
      StoreEdit(input, template, newContents, newLinks.value);
      r := Ok(());
    }

    method StoreEdit(input: UpdateInput, template: Option<Template>, newContents: map<string, Content>, newLinks: map<string, Link>)
      modifies this
      ensures View() == old(View()).(revision := old(revision) + 1,
                                     body := Body(NewDesign(old(StoredDesign()), input, template), newContents, newLinks))
      ensures contents == newContents && links == newLinks
      ensures Wrote(if template.Some? then Some(template.value.key) else None, old(templateKey), templateKey)
      ensures Wrote(if template.Some? then Some(template.value.latestVersion) else None, old(templateVersion), templateVersion)
      ensures Wrote(input.defaultLocale, old(defaultLocale), defaultLocale)
      ensures Wrote(input.theme, old(theme), theme)
      ensures Wrote(input.sectionOrder, old(sectionOrder), sectionOrder)
      ensures Wrote(input.contactForm, old(contactForm), contactForm)
      ensures Wrote(input.avatar, old(avatarFileId), avatarFileId)
      ensures Wrote(input.cover, old(coverFileId), coverFileId)
      ensures Wrote(input.logo, old(logoFileId), logoFileId)
    {
      WriteColumns(input, template);
      contents, links, revision := newContents, newLinks, revision + 1;
    }

    function StoredDesign(): Design
      reads this
    {
      Design(templateKey, templateVersion, defaultLocale, theme, sectionOrder, contactForm,
             Media(avatarFileId, coverFileId, logoFileId))
    }

    method WriteColumns(input: UpdateInput, template: Option<Template>)
      modifies this`templateKey, this`templateVersion, this`defaultLocale, this`theme, this`sectionOrder,
               this`contactForm, this`avatarFileId, this`coverFileId, this`logoFileId
      ensures StoredDesign() == NewDesign(old(StoredDesign()), input, template)
      ensures Wrote(if template.Some? then Some(template.value.key) else None, old(templateKey), templateKey)
      ensures Wrote(if template.Some? then Some(template.value.latestVersion) else None, old(templateVersion), templateVersion)
      ensures Wrote(input.defaultLocale, old(defaultLocale), defaultLocale)
      ensures Wrote(input.theme, old(theme), theme)
      ensures Wrote(input.sectionOrder, old(sectionOrder), sectionOrder)
      ensures Wrote(input.contactForm, old(contactForm), contactForm)
      ensures Wrote(input.avatar, old(avatarFileId), avatarFileId)
      ensures Wrote(input.cover, old(coverFileId), coverFileId)
      ensures Wrote(input.logo, old(logoFileId), logoFileId)
    {
      templateKey, templateVersion :=
        if template.Some? then template.value.key else templateKey,
        if template.Some? then template.value.latestVersion else templateVersion;
      defaultLocale, theme := OrElse(input.defaultLocale, defaultLocale), OrElse(input.theme, theme);
      sectionOrder, contactForm := OrElse(input.sectionOrder, sectionOrder), OrElse(input.contactForm, contactForm);
      avatarFileId, coverFileId, logoFileId :=
        OrElse(input.avatar, avatarFileId), OrElse(input.cover, coverFileId), OrElse(input.logo, logoFileId);
    }

    method Publish(p: Publication, now: int) returns (ok: bool)
      modifies this
      ensures (View(), ok) == CommitPublication(old(View()), p, now)
      ensures old(Sound(View())) ==> Sound(View())
      ensures ok <==> p.revision == old(revision) && !old(deleted)
      ensures ok ==> PublicPage(View()) == Some(p.snapshot)
      ensures !ok ==> View() == old(View())
      ensures ok ==> status == Published && publishedAt == Some(now) && publications == old(publications) + [p]
      ensures old(publications) <= publications && View().body == old(View()).body && requests == old(requests)
    {
      ok := !deleted && revision == p.revision;
      if ok {
        status, publishedAt := Published, Some(now);
        publications := publications + [p];
      }
    }

    method Unpublish()
      modifies this`status
      ensures View() == SetUnpublished(old(View()))
      ensures old(Sound(View())) ==> Sound(View())
      ensures PublicPage(View()).None? && SameCard(old(View()), View())
      ensures status == if deleted then old(status) else Unpublished
    {
      if !deleted {
        status := Unpublished;
      }
    }

    method Remove()
      modifies this
      ensures View() == SetDeleted(old(View()))
      ensures old(Sound(View())) ==> Sound(View())
      ensures deleted && PublicPage(View()).None? && SameCard(old(View()), View())
      ensures requests == old(requests) && ownerUserId == old(ownerUserId) && (!old(deleted) ==> status == Unpublished)
    {
      if !deleted {
        deleted, status := true, Unpublished;
      }
    }

    method Offboard(user: string, unpublish: bool, heir: Option<string>)
      modifies this
      ensures View() == Offboarded(old(View()), user, unpublish, heir)
      ensures old(Sound(View())) ==> Sound(View())
      ensures SameCard(old(View()), View()) && requests == old(requests)
      ensures PublicPage(View()) == if unpublish && old(ownerUserId) == user then None else old(PublicPage(View()))
      ensures publishedAt == if unpublish && old(ownerUserId) == user && old(status) == Published then None else old(publishedAt)
      ensures deleted == old(deleted) && (status != old(status) ==> old(status) == Published && status == Unpublished)
      ensures ownerUserId != old(ownerUserId) ==> old(ownerUserId) == user && heir == Some(ownerUserId)
      ensures ownerUserId == user && heir.Some? ==> deleted || heir.value == user
    {
      if unpublish && ownerUserId == user && status == Published {
        status, publishedAt := Unpublished, None;
      }
      if heir.Some? && ownerUserId == user && !deleted {
        ownerUserId := heir.value;
      }
    }

    method Submit(id: string, user: string, payload: UpdateInput, baseRevision: int)
      requires id !in requests
      modifies this`requests
      ensures View() == Submitted(old(View()), id, user, payload, baseRevision)
      ensures old(Sound(View())) ==> Sound(View())
      ensures id in requests && requests[id] == Request(user, payload, baseRevision, Pending)
      ensures requests.Keys == old(requests).Keys + {id} && OnlyWithdrawn(old(requests), requests, user)
      ensures forall other | other in requests && requests[other].requestedBy == user && requests[other].status == Pending :: other == id
    {
      requests := WithdrawPending(requests, user);
      requests := requests[id := Request(user, payload, baseRevision, Pending)];
    }

    method Withdraw(id: string, user: string) returns (ok: bool)
      modifies this`requests
      ensures (View(), ok) == WithdrawnBy(old(View()), id, user)
      ensures old(Sound(View())) ==> Sound(View()) && (ok ==> !HasPending(requests, user))
      ensures ok ==> id in requests && requests[id].status == Withdrawn
      ensures requests.Keys == old(requests).Keys && OnlyWithdrawn(old(requests), requests, user)
      ensures forall other | other in requests && requests[other] != old(requests)[other] :: ok && other == id
    {
      ok := id in requests && requests[id].requestedBy == user && requests[id].status == Pending;
      if ok {
        requests := requests[id := requests[id].(status := Withdrawn)];
      }
    }

    method Finish(id: string, status: RequestStatus)
      requires id in requests
      modifies this`requests
      ensures View() == Finished(old(View()), id, status)
      ensures old(Sound(View())) && status != Pending ==>
        Sound(View()) && forall user :: HasPending(requests, user) ==> old(HasPending(requests, user))
      ensures requests[id].payload == old(requests)[id].payload
      ensures requests.Keys == old(requests).Keys && requests - {id} == old(requests) - {id}
    {
      requests := requests[id := requests[id].(status := status)];
    }
  }

  method RewriteChildren(contents: map<string, Content>, links: map<string, Link>, input: UpdateInput, ids: seq<string>)
    returns (newContents: map<string, Content>, newLinks: Option<map<string, Link>>)
    requires IdsMatch(input, ids)
    ensures newContents == if input.content.Some? then ContentsOf(input.content.value) else contents
    ensures newLinks == if input.links.Some? then PutLinks(Kept(links, input.links.value), input.links.value, ids) else Some(links)
    ensures if input.content.Some? then HoldsEntries(newContents, input.content.value) else newContents == contents
    ensures newLinks.Some? && input.links.Some? && FreshIds(links, input.links.value, ids) ==> Replaces(newLinks.value, input.links.value, ids)
  {
    newContents, newLinks := contents, Some(links);
    if input.content.Some? {
      newContents := ReplaceContents(contents, input.content.value);
      EntriesHeld(input.content.value);
    }
    if input.links.Some? {
      newLinks := ReplaceLinks(links, input.links.value, ids);
      if FreshIds(links, input.links.value, ids) {
        LinksReplacedInFull(links, input.links.value, ids);
      }
    }
  }

  function NewCard(slug: string, owner: string, template: Template, defaultLocale: string, fullName: string): Tables {
    Tables(slug, owner, Draft, None, false, 1,
           Body(Design(template.key, template.latestVersion, defaultLocale, Null, Null, Null, Media(None, None, None)),
                map[defaultLocale := Content(fullName, None, None, None, None, None)], map[]),
           [], map[])
  }

  /** Deletes the locales an edit leaves out, then writes the others one by one. */
  method ReplaceContents(contents: map<string, Content>, entries: seq<ContentEntry>) returns (r: map<string, Content>)
    ensures r == ContentsOf(entries)
  {
    var kept := map l | l in contents && l in Locales(entries) :: contents[l];
    r := kept;
    for k := 0 to |entries|
      invariant r == kept + ContentsOf(entries[..k])
    {
      assert entries[..k + 1][..k] == entries[..k];
      r := r[entries[k].locale := entries[k].content];
    }
    assert entries[..|entries|] == entries;
    ContentsCover(entries);
  }

  lemma {:induction false} ContentsCover(entries: seq<ContentEntry>)
    ensures ContentsOf(entries).Keys == Locales(entries)
  {
    if entries != [] {
      var n := |entries| - 1;
      ContentsCover(entries[..n]);
      forall l ensures l in Locales(entries) <==> l in Locales(entries[..n]) || l == entries[n].locale {
        if l in Locales(entries[..n]) {
          var i :| 0 <= i < n && entries[..n][i].locale == l;
          assert entries[i].locale == l;
        }
      }
    }
  }

  /** Deletes the links an edit leaves out, then updates or creates the others one by one. */
  method ReplaceLinks(links: map<string, Link>, inputs: seq<LinkInput>, ids: seq<string>) returns (r: Option<map<string, Link>>)
    requires |ids| == |inputs|
    ensures r == PutLinks(Kept(links, inputs), inputs, ids)
  {
    var kept := Kept(links, inputs);
    var work := kept;
    for k := 0 to |inputs|
      invariant PutLinks(kept, inputs[..k], ids[..k]) == Some(work)
    {
      assert inputs[..k + 1][..k] == inputs[..k] && ids[..k + 1][..k] == ids[..k];
      if inputs[k].id.None? {
        work := work[ids[k] := inputs[k].link];
      } else if inputs[k].id.value in work {
        work := work[inputs[k].id.value := inputs[k].link];
      } else {
        PutLinksStaysNone(kept, inputs, ids, k + 1);
        return None;
      }
    }
    assert inputs[..|inputs|] == inputs && ids[..|ids|] == ids;
    r := Some(work);
  }

  lemma {:induction false} PutLinksStaysNone(links: map<string, Link>, inputs: seq<LinkInput>, ids: seq<string>, k: nat)
    requires |ids| == |inputs| && k <= |inputs| && PutLinks(links, inputs[..k], ids[..k]).None?
    ensures PutLinks(links, inputs, ids).None?
    decreases |inputs|
  {
    if k == |inputs| {
      assert inputs[..k] == inputs && ids[..k] == ids;
    } else {
      var n := |inputs| - 1;
      assert inputs[..n][..k] == inputs[..k] && ids[..n][..k] == ids[..k];
      PutLinksStaysNone(links, inputs[..n], ids[..n], k);
    }
  }

  // ---- What a full replacement means ----

  function IdOf(inputs: seq<LinkInput>, ids: seq<string>, k: nat): string
    requires |ids| == |inputs| && k < |inputs|
  {
    if inputs[k].id.Some? then inputs[k].id.value else ids[k]
  }

  /** New ids collide neither with each other nor with an id in use. */
  ghost predicate FreshIds(links: map<string, Link>, inputs: seq<LinkInput>, ids: seq<string>) {
    && |ids| == |inputs|
    && (forall i, j | 0 <= i < j < |ids| :: ids[i] != ids[j])
    && (forall i | 0 <= i < |ids| :: ids[i] !in links && ids[i] !in KeptIds(inputs))
  }

  ghost predicate HasId(inputs: seq<LinkInput>, ids: seq<string>, id: string)
    requires |ids| == |inputs|
  {
    exists k | 0 <= k < |inputs| :: IdOf(inputs, ids, k) == id
  }

  ghost predicate LastWithId(inputs: seq<LinkInput>, ids: seq<string>, k: nat)
    requires |ids| == |inputs| && k < |inputs|
  {
    forall l | k < l < |inputs| :: IdOf(inputs, ids, l) != IdOf(inputs, ids, k)
  }

  /** Of the links an edit puts under one id, the last is what the card holds. */
  ghost predicate Replaces(r: map<string, Link>, inputs: seq<LinkInput>, ids: seq<string>)
    requires |ids| == |inputs|
  {
    && (forall id :: id in r <==> HasId(inputs, ids, id))
    && (forall k: nat | k < |inputs| && LastWithId(inputs, ids, k) ::
          IdOf(inputs, ids, k) in r && r[IdOf(inputs, ids, k)] == inputs[k].link)
  }

  lemma HasIdStep(inputs: seq<LinkInput>, ids: seq<string>, id: string)
    requires |ids| == |inputs| > 0
    ensures var n := |inputs| - 1;
            HasId(inputs, ids, id) <==> HasId(inputs[..n], ids[..n], id) || IdOf(inputs, ids, n) == id
  {
    var n := |inputs| - 1;
    if HasId(inputs[..n], ids[..n], id) {
      var k :| 0 <= k < n && IdOf(inputs[..n], ids[..n], k) == id;
      assert IdOf(inputs, ids, k) == id;
    }
    if HasId(inputs, ids, id) && IdOf(inputs, ids, n) != id {
      var k :| 0 <= k < |inputs| && IdOf(inputs, ids, k) == id;
      assert IdOf(inputs[..n], ids[..n], k) == id;
    }
  }

  lemma {:induction false} PutLinksKeys(links: map<string, Link>, inputs: seq<LinkInput>, ids: seq<string>)
    requires |ids| == |inputs| && PutLinks(links, inputs, ids).Some?
    ensures forall id :: id in PutLinks(links, inputs, ids).value <==> id in links || HasId(inputs, ids, id)
  {
    if inputs != [] {
      var n := |inputs| - 1;
      PutLinksKeys(links, inputs[..n], ids[..n]);
      forall id ensures id in PutLinks(links, inputs, ids).value <==> id in links || HasId(inputs, ids, id) {
        HasIdStep(inputs, ids, id);
      }
    }
  }

  lemma {:induction false} PutLinksValue(links: map<string, Link>, inputs: seq<LinkInput>, ids: seq<string>, k: nat)
    requires |ids| == |inputs| && PutLinks(links, inputs, ids).Some? && k < |inputs| && LastWithId(inputs, ids, k)
    ensures var r := PutLinks(links, inputs, ids).value;
            IdOf(inputs, ids, k) in r && r[IdOf(inputs, ids, k)] == inputs[k].link
    decreases |inputs|
  {
    var n := |inputs| - 1;
    if k < n {
      assert forall l | 0 <= l < n :: IdOf(inputs[..n], ids[..n], l) == IdOf(inputs, ids, l);
      PutLinksValue(links, inputs[..n], ids[..n], k);
      assert IdOf(inputs, ids, n) != IdOf(inputs, ids, k);
    }
  }

  /** Ids given to new links do not decide whether an edit is refused. */
  lemma {:induction false} PutLinksSucceeds(links: map<string, Link>, inputs: seq<LinkInput>, ids: seq<string>)
    requires |ids| == |inputs| && forall i | 0 <= i < |ids| :: ids[i] !in KeptIds(inputs)
    ensures PutLinks(links, inputs, ids).Some? <==> KeptIds(inputs) <= links.Keys
    decreases |inputs|
  {
    if inputs != [] {
      var n := |inputs| - 1;
      KeptIdsStep(inputs);
      PutLinksSucceeds(links, inputs[..n], ids[..n]);
      if PutLinks(links, inputs[..n], ids[..n]).Some? && inputs[n].id.Some? {
        var id := inputs[n].id.value;
        assert id in KeptIds(inputs);
        PutLinksKeys(links, inputs[..n], ids[..n]);
        if HasId(inputs[..n], ids[..n], id) {
          var k :| 0 <= k < n && IdOf(inputs[..n], ids[..n], k) == id;
          assert inputs[..n][k].id.Some? ==> id in KeptIds(inputs[..n]);
        }
      }
    }
  }

  lemma KeptIdsStep(inputs: seq<LinkInput>)
    requires inputs != []
    ensures var n := |inputs| - 1;
            KeptIds(inputs) == KeptIds(inputs[..n]) + if inputs[n].id.Some? then {inputs[n].id.value} else {}
  {
  }

  /**
   * An edit's links replace the card's links in full, keeping the ids it names; it is refused
   * exactly when it names an id the card does not have.
   */
  lemma LinksReplacedInFull(links: map<string, Link>, inputs: seq<LinkInput>, ids: seq<string>)
    requires FreshIds(links, inputs, ids)
    ensures var r := PutLinks(Kept(links, inputs), inputs, ids);
            && (r.Some? <==> KeptIds(inputs) <= links.Keys)
            && (r.Some? ==> Replaces(r.value, inputs, ids))
  {
    var kept := Kept(links, inputs);
    PutLinksSucceeds(kept, inputs, ids);
    var r := PutLinks(kept, inputs, ids);
    if r.Some? {
      PutLinksKeys(kept, inputs, ids);
      forall id | id in kept ensures HasId(inputs, ids, id) {
        var k :| 0 <= k < |inputs| && inputs[k].id.Some? && inputs[k].id.value == id;
        assert IdOf(inputs, ids, k) == id;
      }
      forall k: nat | k < |inputs| && LastWithId(inputs, ids, k)
        ensures IdOf(inputs, ids, k) in r.value && r.value[IdOf(inputs, ids, k)] == inputs[k].link
      {
        PutLinksValue(kept, inputs, ids, k);
      }
    }
  }

  // ---- The default language ----

  /** The card has content in the language it is shown in by default. */
  predicate Covered(b: Body) {
    b.design.defaultLocale in b.contents
  }

  /** The checks `update` makes between loading the card and its transaction. */
  predicate Checked(d: Design, input: UpdateInput, template: Option<Template>) {
    && (template.Some? <==> input.templateKey.Some? && input.templateKey.value != d.templateKey)
    && (template.Some? ==> template.value.key == input.templateKey.value)
    && (input.content.Some? ==> OrElse(input.defaultLocale, d.defaultLocale) in Locales(input.content.value))
  }

  /** An edit that brings content, or whose default language already has some, is what keeps the card covered. */
  lemma CoveredExactly(b: Body, input: UpdateInput, template: Option<Template>, ids: seq<string>)
    requires IdsMatch(input, ids) && Checked(b.design, input, template) && UpdatedBody(b, input, template, ids).Some?
    ensures Covered(UpdatedBody(b, input, template, ids).value) <==>
            input.content.Some? || OrElse(input.defaultLocale, b.design.defaultLocale) in b.contents
  {
    if input.content.Some? {
      ContentsCover(input.content.value);
    }
  }
}
